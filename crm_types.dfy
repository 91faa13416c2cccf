/**
 * The CRM's records (client/hooks/useCRMStore.ts) and the signed-in user
 * (client/contexts/AuthContext.tsx).
 *
 * The `Lead` interface declares thirteen fields; the pages also read and write
 * `assignedTo`, `status`, `note` and `nextReminderDate`, so those are optional
 * fields here. A partial update (`Partial<Lead>`) has an optional entry per field;
 * for the four optional fields an entry can be absent (`None`) or present with
 * the value `undefined` (`Some(None)`), which object spread tells apart.
 */
module CrmTypes {
  import opened Wrappers

  datatype Lead = Lead(
    id: string,
    name: string,
    jobTitle: string,
    company: string,
    email: string,
    phoneNumbers: seq<string>,
    actions: seq<string>,
    links: seq<string>,
    locations: seq<string>,
    companyEmployees: string,
    companyIndustries: seq<string>,
    companyKeywords: seq<string>,
    createdAt: string,
    assignedTo: Option<string>,
    status: Option<string>,
    note: Option<string>,
    nextReminderDate: Option<string>)

  /** `Omit<Lead, "id" | "createdAt">`: what `addLead` takes, and the lead form's declared type. */
  datatype LeadInput = LeadInput(
    name: string,
    jobTitle: string,
    company: string,
    email: string,
    phoneNumbers: seq<string>,
    actions: seq<string>,
    links: seq<string>,
    locations: seq<string>,
    companyEmployees: string,
    companyIndustries: seq<string>,
    companyKeywords: seq<string>,
    assignedTo: Option<string>,
    status: Option<string>,
    note: Option<string>,
    nextReminderDate: Option<string>)

  /** `Partial<Lead>`. */
  datatype LeadPatch = LeadPatch(
    id: Option<string>,
    name: Option<string>,
    jobTitle: Option<string>,
    company: Option<string>,
    email: Option<string>,
    phoneNumbers: Option<seq<string>>,
    actions: Option<seq<string>>,
    links: Option<seq<string>>,
    locations: Option<seq<string>>,
    companyEmployees: Option<string>,
    companyIndustries: Option<seq<string>>,
    companyKeywords: Option<seq<string>>,
    createdAt: Option<string>,
    assignedTo: Option<Option<string>>,
    status: Option<Option<string>>,
    note: Option<Option<string>>,
    nextReminderDate: Option<Option<string>>)

  const EmptyLeadPatch := LeadPatch(None, None, None, None, None, None, None, None, None,
                                    None, None, None, None, None, None, None, None)

  /** `{ ...lead, ...updates }`. */
  function MergeLead(l: Lead, p: LeadPatch): Lead {
    Lead(
      p.id.GetOr(l.id),
      p.name.GetOr(l.name),
      p.jobTitle.GetOr(l.jobTitle),
      p.company.GetOr(l.company),
      p.email.GetOr(l.email),
      p.phoneNumbers.GetOr(l.phoneNumbers),
      p.actions.GetOr(l.actions),
      p.links.GetOr(l.links),
      p.locations.GetOr(l.locations),
      p.companyEmployees.GetOr(l.companyEmployees),
      p.companyIndustries.GetOr(l.companyIndustries),
      p.companyKeywords.GetOr(l.companyKeywords),
      p.createdAt.GetOr(l.createdAt),
      p.assignedTo.GetOr(l.assignedTo),
      p.status.GetOr(l.status),
      p.note.GetOr(l.note),
      p.nextReminderDate.GetOr(l.nextReminderDate))
  }

  /** `{ ...lead }` used as an update: every field present. */
  function PatchOf(l: Lead): LeadPatch {
    LeadPatch(Some(l.id), Some(l.name), Some(l.jobTitle), Some(l.company), Some(l.email),
              Some(l.phoneNumbers), Some(l.actions), Some(l.links), Some(l.locations),
              Some(l.companyEmployees), Some(l.companyIndustries), Some(l.companyKeywords),
              Some(l.createdAt), Some(l.assignedTo), Some(l.status), Some(l.note),
              Some(l.nextReminderDate))
  }

  /** The form data used as an update: every field but `id` and `createdAt` present. */
  function PatchOfInput(i: LeadInput): LeadPatch {
    LeadPatch(None, Some(i.name), Some(i.jobTitle), Some(i.company), Some(i.email),
              Some(i.phoneNumbers), Some(i.actions), Some(i.links), Some(i.locations),
              Some(i.companyEmployees), Some(i.companyIndustries), Some(i.companyKeywords),
              None, Some(i.assignedTo), Some(i.status), Some(i.note), Some(i.nextReminderDate))
  }

  /** `{ status }`: the update a Kanban drop sends. */
  function StatusPatch(status: string): LeadPatch {
    EmptyLeadPatch.(status := Some(Some(status)))
  }

  /** Merging an empty update changes nothing. */
  lemma MergeEmpty(l: Lead)
    ensures MergeLead(l, EmptyLeadPatch) == l
  {
  }

  /** Merging a full copy of `m` yields `m`, whatever the lead it is merged into. */
  lemma MergeFull(l: Lead, m: Lead)
    ensures MergeLead(l, PatchOf(m)) == m
  {
  }

  /** Merging the form data keeps the lead's `id` and `createdAt` and takes everything else from the form. */
  lemma MergeInput(l: Lead, i: LeadInput)
    ensures var r := MergeLead(l, PatchOfInput(i));
      r.id == l.id && r.createdAt == l.createdAt && r.name == i.name && r.email == i.email
      && r.phoneNumbers == i.phoneNumbers && r.assignedTo == i.assignedTo && r.status == i.status
      && r.nextReminderDate == i.nextReminderDate
  {
  }

  datatype Salesperson = Salesperson(
    id: string,
    name: string,
    email: string,
    phoneNumber: string,
    createdAt: string)

  /** What the pages pass to `addSalesperson`; the admin page adds the new account's `authId`. */
  datatype SalespersonInput = SalespersonInput(
    name: string,
    email: string,
    phoneNumber: string,
    authId: Option<string>)

  /** `Partial<Salesperson>`. */
  datatype SalespersonPatch = SalespersonPatch(
    id: Option<string>,
    name: Option<string>,
    email: Option<string>,
    phoneNumber: Option<string>,
    createdAt: Option<string>)

  function MergeSalesperson(s: Salesperson, p: SalespersonPatch): Salesperson {
    Salesperson(p.id.GetOr(s.id), p.name.GetOr(s.name), p.email.GetOr(s.email),
                p.phoneNumber.GetOr(s.phoneNumber), p.createdAt.GetOr(s.createdAt))
  }

  /**
   * The signed-in user. `AuthUser` declares only `id`, `email` and `name`; pages
   * read `user.role`, which is therefore always undefined.
   */
  datatype AuthUser = AuthUser(id: string, email: string, name: string, role: Option<string>)

  /** The user the authentication context builds after a sign-in. */
  function SessionUser(id: string, email: string, name: string): (u: AuthUser)
    ensures u.role.None?
    ensures u.id == id
  {
    AuthUser(id, email, name, None)
  }

  /** `lead.assignedTo === user?.id`: with no user the right-hand side is `undefined`. */
  predicate AssignedTo(l: Lead, user: Option<AuthUser>) {
    match user
    case Some(u) => l.assignedTo == Some(u.id)
    case None => l.assignedTo.None?
  }

  /** `user?.role === r`. */
  predicate HasRole(user: Option<AuthUser>, r: string) {
    user.Some? && user.value.role == Some(r)
  }

  /** No user the authentication context builds has a role, so every role test fails. */
  lemma SessionUserHasNoRole(id: string, email: string, name: string, r: string)
    ensures !HasRole(Some(SessionUser(id, email, name)), r)
  {
  }
}
