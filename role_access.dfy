/**
 * Role-based access predicates (client/hooks/useRoleBasedAccess.ts). Each is
 * written for an arbitrary role, as the source's branches are; the hook fixes the
 * role to "salesperson", and the public predicates are those instances.
 */
module RoleAccess {
  import opened Wrappers
  import opened Lists
  import opened CrmTypes

  /** The hook's `userRole`, a constant. */
  const UserRole: string := "salesperson"

  predicate Privileged(role: string) {
    role == "admin" || role == "manager"
  }

  function ViewAllowed(role: string, user: Option<AuthUser>, lead: Lead): bool {
    if user.None? then false else true
  }

  function EditAllowed(role: string, user: Option<AuthUser>, lead: Lead): bool {
    if user.None? then false
    else if Privileged(role) then true
    else lead.assignedTo == Some(user.value.id)
  }

  function DeleteAllowed(role: string, user: Option<AuthUser>, lead: Lead): bool {
    if user.None? then false
    else if Privileged(role) then true
    else lead.assignedTo == Some(user.value.id)
  }

  function AssignAllowed(role: string): bool {
    role == "manager" || role == "admin"
  }

  function ViewableFor(role: string, leads: seq<Lead>): seq<Lead> {
    if Privileged(role) then leads else leads
  }

  /** `leads.filter(lead => lead.assignedTo === user?.id)` for unprivileged roles. */
  function ManageableFor(role: string, user: Option<AuthUser>, leads: seq<Lead>): seq<Lead> {
    if Privileged(role) then leads else Filter(leads, (l: Lead) => AssignedTo(l, user))
  }

  /** Signed-in users may view every lead; nobody else may view any. */
  function CanViewLead(user: Option<AuthUser>, lead: Lead): (r: bool)
    ensures r <==> user.Some?
  {
    ViewAllowed(UserRole, user, lead)
  }

  /** Under the fixed role, a lead is editable exactly by the user it is assigned to. */
  function CanEditLead(user: Option<AuthUser>, lead: Lead): (r: bool)
    ensures r <==> user.Some? && lead.assignedTo == Some(user.value.id)
  {
    EditAllowed(UserRole, user, lead)
  }

  function CanDeleteLead(user: Option<AuthUser>, lead: Lead): (r: bool)
    ensures r == CanEditLead(user, lead)
  {
    DeleteAllowed(UserRole, user, lead)
  }

  function CanAssignLeads(): (r: bool)
    ensures !r
  {
    AssignAllowed(UserRole)
  }

  function CanAutoAssignLeads(): (r: bool)
    ensures !r
  {
    AssignAllowed(UserRole)
  }

  function GetViewableLeads(leads: seq<Lead>): (r: seq<Lead>)
    ensures r == leads
  {
    ViewableFor(UserRole, leads)
  }

  function GetManageableLeads(user: Option<AuthUser>, leads: seq<Lead>): seq<Lead> {
    ManageableFor(UserRole, user, leads)
  }

  /** Without a user nothing is viewable, editable or deletable. */
  lemma NoUserNoAccess(lead: Lead)
    ensures !CanViewLead(None, lead) && !CanEditLead(None, lead) && !CanDeleteLead(None, lead)
  {
  }

  /**
   * For a signed-in user, the manageable leads are exactly the order-preserving
   * sublist that `CanEditLead` accepts.
   */
  lemma ManageableIsEditable(u: AuthUser, leads: seq<Lead>)
    ensures GetManageableLeads(Some(u), leads) == Filter(leads, (l: Lead) => CanEditLead(Some(u), l))
  {
    FilterSame(leads, (l: Lead) => AssignedTo(l, Some(u)), (l: Lead) => CanEditLead(Some(u), l));
  }

  /**
   * Without a user the filter compares with `undefined`, so it keeps the
   * unassigned leads, although `CanEditLead` rejects all of them.
   */
  lemma ManageableWithoutUser(leads: seq<Lead>)
    ensures GetManageableLeads(None, leads) == Filter(leads, (l: Lead) => l.assignedTo.None?)
  {
    FilterSame(leads, (l: Lead) => AssignedTo(l, None), (l: Lead) => l.assignedTo.None?);
  }
}
