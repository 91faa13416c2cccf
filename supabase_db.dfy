/**
 * The browser's data layer over the hosted database (client/lib/supabase-db.ts):
 * rows of the `leads` and `salespersons` tables mapped to the store's records,
 * and the objects sent on insert and update. A query's answer is a parameter: a
 * `Reply` whose `Threw` case is the `error` the client library reports.
 */
module SupabaseDb {
  import opened Wrappers
  import opened Json
  import opened CrmTypes
  import opened LeadColumns

  /**
   * A row of the `leads` table, by column. Array columns may be null; the four
   * columns the server route writes are read by no mapper here.
   */
  datatype LeadRow = LeadRow(
    id: string,
    name: string,
    job_title: string,
    company: string,
    email: string,
    phone_numbers: Option<seq<string>>,
    actions: Option<seq<string>>,
    links: Option<seq<string>>,
    locations: Option<seq<string>>,
    company_employees: string,
    company_industries: Option<seq<string>>,
    company_keywords: Option<seq<string>>,
    created_at: string,
    assigned_to: Option<string>,
    status: Option<string>,
    note: Option<string>,
    next_reminder_date: Option<string>)

  /** The row-to-lead mapping: snake_case columns to camelCase fields, null arrays to `[]`. */
  function LeadOfRow(row: LeadRow): (l: Lead)
    ensures l.id == row.id && l.name == row.name && l.jobTitle == row.job_title
    ensures l.company == row.company && l.email == row.email && l.createdAt == row.created_at
    ensures l.companyEmployees == row.company_employees
    ensures l.phoneNumbers == row.phone_numbers.GetOr([]) && l.actions == row.actions.GetOr([])
    ensures l.links == row.links.GetOr([]) && l.locations == row.locations.GetOr([])
    ensures l.companyIndustries == row.company_industries.GetOr([])
    ensures l.companyKeywords == row.company_keywords.GetOr([])
    ensures l.assignedTo.None? && l.status.None? && l.note.None? && l.nextReminderDate.None?
  {
    Lead(row.id, row.name, row.job_title, row.company, row.email,
         row.phone_numbers.GetOr([]), row.actions.GetOr([]), row.links.GetOr([]),
         row.locations.GetOr([]), row.company_employees, row.company_industries.GetOr([]),
         row.company_keywords.GetOr([]), row.created_at, None, None, None, None)
  }

  /** `getLeads`: a query error or a null `data` gives `[]`; otherwise one lead per row, in order. */
  function GetLeads(reply: Reply<Option<seq<LeadRow>>>): (r: seq<Lead>)
    ensures reply.Threw? || reply.value.None? ==> r == []
    ensures reply.Returned? && reply.value.Some? ==>
      |r| == |reply.value.value| && forall i :: 0 <= i < |r| ==> r[i] == LeadOfRow(reply.value.value[i])
  {
    if reply.Threw? || reply.value.None? then []
    else seq(|reply.value.value|, i requires 0 <= i < |reply.value.value| => LeadOfRow(reply.value.value[i]))
  }

  /** A lead's value for a column the browser writes, as sent. */
  function InputValue(input: LeadInput, f: LeadField): Json {
    match f
    case Name => JStr(input.name)
    case JobTitle => JStr(input.jobTitle)
    case Company => JStr(input.company)
    case Email => JStr(input.email)
    case PhoneNumbers => StrArr(input.phoneNumbers)
    case Actions => StrArr(input.actions)
    case Links => StrArr(input.links)
    case Locations => StrArr(input.locations)
    case CompanyEmployees => JStr(input.companyEmployees)
    case CompanyIndustries => StrArr(input.companyIndustries)
    case CompanyKeywords => StrArr(input.companyKeywords)
    case _ => JNull
  }

  /** The object `addLead` inserts: exactly the eleven browser columns, each from its field. */
  function InsertPayload(input: LeadInput): (r: JsObject)
    ensures r.Keys == ClientColumns.Keys
    ensures forall k :: k in r ==> r[k] == InputValue(input, ClientColumns[k])
  {
    map k | k in ClientColumns :: InputValue(input, ClientColumns[k])
  }

  /**
   * The row the table holds after that insert: the sent columns as given, a
   * generated `id` and `created_at`, and null in every column not sent.
   */
  function StoredRow(input: LeadInput, id: string, createdAt: string): LeadRow {
    LeadRow(id, input.name, input.jobTitle, input.company, input.email,
            Some(input.phoneNumbers), Some(input.actions), Some(input.links), Some(input.locations),
            input.companyEmployees, Some(input.companyIndustries), Some(input.companyKeywords),
            createdAt, None, None, None, None)
  }

  /** A row's value in a column the browser writes. */
  function RowValue(row: LeadRow, f: LeadField): Json {
    match f
    case Name => JStr(row.name)
    case JobTitle => JStr(row.job_title)
    case Company => JStr(row.company)
    case Email => JStr(row.email)
    case PhoneNumbers => if row.phone_numbers.Some? then StrArr(row.phone_numbers.value) else JNull
    case Actions => if row.actions.Some? then StrArr(row.actions.value) else JNull
    case Links => if row.links.Some? then StrArr(row.links.value) else JNull
    case Locations => if row.locations.Some? then StrArr(row.locations.value) else JNull
    case CompanyEmployees => JStr(row.company_employees)
    case CompanyIndustries => if row.company_industries.Some? then StrArr(row.company_industries.value) else JNull
    case CompanyKeywords => if row.company_keywords.Some? then StrArr(row.company_keywords.value) else JNull
    case _ => JNull
  }

  /** The stored row holds in every sent column what the insert object sent. */
  lemma StoredRowHoldsPayload(input: LeadInput, id: string, createdAt: string)
    ensures forall k :: k in InsertPayload(input) ==>
      RowValue(StoredRow(input, id, createdAt), ClientColumns[k]) == InsertPayload(input)[k]
  {
  }

  /** `addLead`: the returned row mapped back, or the error re-thrown. */
  function AddLead(result: Reply<LeadRow>): (r: Reply<Lead>)
    ensures result.Threw? ==> r == Threw(result.message)
    ensures result.Returned? ==> r == Returned(LeadOfRow(result.value))
  {
    match result
    case Threw(e) => Threw(e)
    case Returned(row) => Returned(LeadOfRow(row))
  }

  /**
   * Inserting the form data and mapping the returned row back gives the form's
   * eleven fields unchanged, with the generated id and timestamp; the assignee,
   * status, note and reminder date the form holds are not saved.
   */
  lemma AddLeadRoundTrip(input: LeadInput, id: string, createdAt: string)
    ensures var l := AddLead(Returned(StoredRow(input, id, createdAt))).value;
      l.id == id && l.createdAt == createdAt
      && l.name == input.name && l.jobTitle == input.jobTitle && l.company == input.company
      && l.email == input.email && l.phoneNumbers == input.phoneNumbers && l.actions == input.actions
      && l.links == input.links && l.locations == input.locations
      && l.companyEmployees == input.companyEmployees && l.companyIndustries == input.companyIndustries
      && l.companyKeywords == input.companyKeywords
      && l.assignedTo.None? && l.status.None? && l.note.None? && l.nextReminderDate.None?
  {
  }

  /**
   * `updateLead`'s `updateData`, built one guarded assignment at a time: a column
   * is present exactly when its field is defined in `updates`, holding that value.
   */
  method UpdatePayload(updates: LeadPatch) returns (payload: JsObject)
    ensures Written(payload, ClientColumns, PatchValues(updates))
  {
    ColumnTablesLayout();
    payload := WriteClientColumns(ClientColumns, PatchValues(updates));
  }

  /** The four store-only fields never reach the table through `updateLead`, whatever the update holds. */
  lemma UpdateNeverWritesStoreFields(updates: LeadPatch, payload: JsObject)
    requires Written(payload, ClientColumns, PatchValues(updates))
    ensures "assigned_to" !in payload && "status" !in payload && "note" !in payload
    ensures "next_reminder_date" !in payload
  {
    ClientColumnsOmitStoreFields();
  }

  /** A status change sent through `updateLead`, as a Kanban drop sends it, writes nothing at all. */
  lemma StatusUpdateSendsNothing(s: string, payload: JsObject)
    requires Written(payload, ClientColumns, PatchValues(StatusPatch(s)))
    ensures payload == map[]
  {
    StatusPatchHasNoClientValue(s);
  }

  /** `updateLead`, `deleteLead`, `updateSalesperson` and `deleteSalesperson`: an error is re-thrown. */
  function Completed(error: Option<string>): (r: Reply<()>)
    ensures r.Threw? <==> error.Some?
    ensures error.Some? ==> r.message == error.value
  {
    if error.Some? then Threw(error.value) else Returned(())
  }

  /** A row of the `salespersons` table. */
  datatype SalespersonRow = SalespersonRow(id: string, name: string, email: string, phone_number: string, created_at: string)

  function SalespersonOfRow(row: SalespersonRow): (s: Salesperson)
    ensures s.id == row.id && s.name == row.name && s.email == row.email
    ensures s.phoneNumber == row.phone_number && s.createdAt == row.created_at
  {
    Salesperson(row.id, row.name, row.email, row.phone_number, row.created_at)
  }

  /** `getSalespersons`: a query error or a null `data` gives `[]`; otherwise one record per row, in order. */
  function GetSalespersons(reply: Reply<Option<seq<SalespersonRow>>>): (r: seq<Salesperson>)
    ensures reply.Threw? || reply.value.None? ==> r == []
    ensures reply.Returned? && reply.value.Some? ==>
      |r| == |reply.value.value| && forall i :: 0 <= i < |r| ==> r[i] == SalespersonOfRow(reply.value.value[i])
  {
    if reply.Threw? || reply.value.None? then []
    else seq(|reply.value.value|, i requires 0 <= i < |reply.value.value| => SalespersonOfRow(reply.value.value[i]))
  }

  /** The object `addSalesperson` inserts: name, email and phone only, so an `authId` is dropped. */
  function SalespersonInsert(input: SalespersonInput): (r: JsObject)
    ensures r.Keys == {"name", "email", "phone_number"}
    ensures r["name"] == JStr(input.name) && r["email"] == JStr(input.email)
    ensures r["phone_number"] == JStr(input.phoneNumber)
  {
    map["name" := JStr(input.name), "email" := JStr(input.email), "phone_number" := JStr(input.phoneNumber)]
  }

  /** The inserted salesperson read back keeps the name, email and phone it was given. */
  lemma AddSalespersonRoundTrip(input: SalespersonInput, id: string, createdAt: string)
    ensures var s := SalespersonOfRow(SalespersonRow(id, input.name, input.email, input.phoneNumber, createdAt));
      s == Salesperson(id, input.name, input.email, input.phoneNumber, createdAt)
    ensures "auth_id" !in SalespersonInsert(input) && "authId" !in SalespersonInsert(input)
  {
  }

  /** `addSalesperson`: the returned row mapped back, or the error re-thrown. */
  function AddSalesperson(result: Reply<SalespersonRow>): (r: Reply<Salesperson>)
    ensures result.Threw? ==> r == Threw(result.message)
    ensures result.Returned? ==> r == Returned(SalespersonOfRow(result.value))
  {
    match result
    case Threw(e) => Threw(e)
    case Returned(row) => Returned(SalespersonOfRow(row))
  }

  /** `updateSalesperson`'s `updateData`: each of the three columns exactly when its field is defined. */
  method SalespersonUpdatePayload(updates: SalespersonPatch) returns (payload: JsObject)
    ensures "name" in payload <==> updates.name.Some?
    ensures "email" in payload <==> updates.email.Some?
    ensures "phone_number" in payload <==> updates.phoneNumber.Some?
    ensures forall k :: k in payload ==> k in {"name", "email", "phone_number"}
    ensures updates.name.Some? ==> payload["name"] == JStr(updates.name.value)
    ensures updates.email.Some? ==> payload["email"] == JStr(updates.email.value)
    ensures updates.phoneNumber.Some? ==> payload["phone_number"] == JStr(updates.phoneNumber.value)
  {
    payload := map[];
    if updates.name.Some? { payload := payload["name" := JStr(updates.name.value)]; }
    if updates.email.Some? { payload := payload["email" := JStr(updates.email.value)]; }
    if updates.phoneNumber.Some? { payload := payload["phone_number" := JStr(updates.phoneNumber.value)]; }
  }
}
