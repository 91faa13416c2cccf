/**
 * The leads page (client/pages/Leads.tsx): block-wise auto-assignment of the
 * unassigned leads, the per-field list editors of the lead form, the form's
 * submit/edit/cancel cycle, the visible-lead filter and the per-row handlers.
 */
module LeadsPage {
  import opened Wrappers
  import opened Text
  import opened Lists
  import opened CrmTypes
  import opened CrmStore
  import RoleAccess
  import opened Arith

  /** The status vocabulary of this page (the Kanban board uses another one). */
  const LeadStatuses: seq<string> := ["Not lifted", "Not connected", "Voice Message", "Quotation sent",
                                      "Site visit", "Advance payment", "Lead finished", "Contacted"]

  // ---------------------------------------------------------------------------
  // Auto-assignment

  /** `!l.assignedTo`: no assignee, or the empty string. */
  predicate Unassigned(l: Lead) {
    !Truthy(l.assignedTo)
  }

  function UnassignedLeads(ls: seq<Lead>): seq<Lead> {
    Filter(ls, (l: Lead) => Unassigned(l))
  }

  /** `Math.ceil(n / m)` for a positive number of salespersons. */
  function LeadsPerPerson(n: nat, m: nat): (per: nat)
    requires m > 0
    ensures per * m >= n
    ensures n > 0 ==> per > 0 && (per - 1) * m < n
  {
    (n + m - 1) / m
  }

  /** The salesperson index the i-th of `n` unassigned leads (0-based) goes to. */
  function Target(i: nat, n: nat, m: nat): nat
    requires m > 0 && i < n
  {
    i / LeadsPerPerson(n, m)
  }

  /** Every index the loop uses is in range: the wrap-around branch never runs. */
  lemma TargetInRange(i: nat, n: nat, m: nat)
    requires m > 0 && i < n
    ensures Target(i, n, m) < m
  {
    var per := LeadsPerPerson(n, m);
    var q := i / per;
    assert q * per <= i;
    if q >= m {
      MulLe(m, q, per);
      assert false;
    }
  }

  /**
   * One turn of the loop's counters: after the "block full" reset the index is the
   * lead's target and lies in range, and the position advances by one.
   */
  lemma CounterStep(i: nat, n: nat, m: nat, spi: nat, cnt: nat)
    requires m > 0 && i < n
    requires spi * LeadsPerPerson(n, m) + cnt == i && cnt <= LeadsPerPerson(n, m)
    ensures var per := LeadsPerPerson(n, m);
      var spi', cnt' := if cnt >= per then spi + 1 else spi, if cnt >= per then 0 else cnt;
      spi' == Target(i, n, m) && spi' < m && cnt' < per && spi' * per + cnt' + 1 == i + 1
  {
    var per := LeadsPerPerson(n, m);
    var spi', cnt' := if cnt >= per then spi + 1 else spi, if cnt >= per then 0 else cnt;
    assert spi' * per + cnt' == i;
    DivUnique(i, per, spi', cnt');
    TargetInRange(i, n, m);
  }

  /**
   * The counters' step before an update: the next salesperson once the current
   * one has `per` leads, and back to the first past the last one. The slot
   * reached is the one the i-th lead goes to, so the wrap-around never fires.
   */
  method NextSlot(i: nat, n: nat, m: nat, spi: nat, cnt: nat) returns (spi': nat, cnt': nat)
    requires m > 0 && i < n
    requires spi * LeadsPerPerson(n, m) + cnt == i && cnt <= LeadsPerPerson(n, m)
    ensures spi' == Target(i, n, m) && spi' < m
    ensures cnt' < LeadsPerPerson(n, m) && spi' * LeadsPerPerson(n, m) + cnt' == i
  {
    var per := (n + m - 1) / m;
    CounterStep(i, n, m, spi, cnt);
    var s: int, c: int := spi, cnt;
    if c >= per {
      s := s + 1;
      c := 0;
    }
    if s >= m {
      s := 0;
      c := 0;
    }
    spi', cnt' := s, c;
  }

  /** The update auto-assign sends: `{ ...lead, assignedTo: salesperson.id }`. */
  function AssignPatch(l: Lead, salespersonId: string): LeadPatch {
    PatchOf(l).(assignedTo := Some(Some(salespersonId)))
  }

  /** The store state after the first `k` updates of the auto-assign loop have gone through. */
  function AssignPrefix(ls: seq<Lead>, us: seq<Lead>, sps: seq<Salesperson>, k: nat): seq<Lead>
    requires |sps| > 0 && k <= |us|
  {
    if k == 0 then ls
    else
      TargetInRange(k - 1, |us|, |sps|);
      var u := us[k - 1];
      UpdateLeads(AssignPrefix(ls, us, sps, k - 1), u.id, AssignPatch(u, sps[Target(k - 1, |us|, |sps|)].id))
  }

  lemma AssignPrefixStep(ls: seq<Lead>, us: seq<Lead>, sps: seq<Salesperson>, k: nat)
    requires |sps| > 0 && k < |us|
    ensures Target(k, |us|, |sps|) < |sps|
    ensures AssignPrefix(ls, us, sps, k + 1)
         == UpdateLeads(AssignPrefix(ls, us, sps, k), us[k].id, AssignPatch(us[k], sps[Target(k, |us|, |sps|)].id))
  {
    TargetInRange(k, |us|, |sps|);
  }

  datatype AssignOutcome =
    | NoSalespersons           // error toast, nothing sent
    | AllAssigned              // info toast, nothing sent
    | Assigned(count: nat)     // every update went through
    | FailedAt(index: nat)     // the update for this unassigned lead threw; the loop stopped

  /**
   * `handleAutoAssign`. The backend accepts every update except the one for the
   * unassigned lead with index `firstFailure` (an index past the end means none fails).
   */
  method AutoAssign(store: Store, firstFailure: nat) returns (outcome: AssignOutcome)
    modifies store
    ensures store.salespersons == old(store.salespersons)
    ensures var us, sps := UnassignedLeads(old(store.leads)), old(store.salespersons);
      if |sps| == 0 then outcome == NoSalespersons && store.leads == old(store.leads)
      else if us == [] then outcome == AllAssigned && store.leads == old(store.leads)
      else if firstFailure < |us| then
        outcome == FailedAt(firstFailure) && store.leads == AssignPrefix(old(store.leads), us, sps, firstFailure)
      else
        outcome == Assigned(|us|) && store.leads == AssignPrefix(old(store.leads), us, sps, |us|)
  {
    var sps := store.salespersons;
    if |sps| == 0 {
      return NoSalespersons;
    }
    var us := UnassignedLeads(store.leads);
    if |us| == 0 {
      return AllAssigned;
    }
    outcome := AssignInOrder(store, us, sps, firstFailure);
  }

  /**
   * The loop of `handleAutoAssign` over the unassigned leads `us`, in order,
   * stopping at the first update that throws.
   */
  method AssignInOrder(store: Store, us: seq<Lead>, sps: seq<Salesperson>, firstFailure: nat) returns (outcome: AssignOutcome)
    requires |sps| > 0 && us != [] && store.salespersons == sps
    modifies store
    ensures store.salespersons == sps
    ensures firstFailure < |us| ==> outcome == FailedAt(firstFailure) && store.leads == AssignPrefix(old(store.leads), us, sps, firstFailure)
    ensures firstFailure >= |us| ==> outcome == Assigned(|us|) && store.leads == AssignPrefix(old(store.leads), us, sps, |us|)
  {
    ghost var ls0 := store.leads;
    var per := (|us| + |sps| - 1) / |sps|;
    assert per == LeadsPerPerson(|us|, |sps|);
    var salesPersonIndex: nat, leadsAssignedThisPerson: nat := 0, 0;
    var i := 0;
    while i < |us|
      invariant i <= |us| && i <= firstFailure
      invariant salesPersonIndex * per + leadsAssignedThisPerson == i
      invariant leadsAssignedThisPerson <= per
      invariant store.salespersons == sps
      invariant store.leads == AssignPrefix(ls0, us, sps, i)
    {
      salesPersonIndex, leadsAssignedThisPerson := NextSlot(i, |us|, |sps|, salesPersonIndex, leadsAssignedThisPerson);
      AssignPrefixStep(ls0, us, sps, i);
      var ok := store.UpdateLead(us[i].id, AssignPatch(us[i], sps[salesPersonIndex].id), i != firstFailure);
      if !ok {
        return FailedAt(i);
      }
      assert store.leads == AssignPrefix(ls0, us, sps, i + 1);
      leadsAssignedThisPerson := leadsAssignedThisPerson + 1;
      i := i + 1;
    }
    return Assigned(|us|);
  }

  ghost predicate DistinctIds(s: seq<Lead>) {
    forall i, j :: 0 <= i < j < |s| ==> s[i].id != s[j].id
  }

  lemma {:induction false} UnassignedDistinct(ls: seq<Lead>)
    requires DistinctIds(ls)
    ensures DistinctIds(UnassignedLeads(ls))
  {
    if ls != [] {
      assert DistinctIds(ls[1..]);
      UnassignedDistinct(ls[1..]);
      var tail := UnassignedLeads(ls[1..]);
      assert UnassignedLeads(ls) == (if Unassigned(ls[0]) then [ls[0]] else []) + tail;
      forall k | 0 <= k < |tail| ensures tail[k].id != ls[0].id {
        var j :| 0 <= j < |ls[1..]| && ls[1..][j] == tail[k];
        assert ls[j + 1] == tail[k];
      }
    }
  }

  /** An unassigned lead with the same id as a lead of the list is that lead, when ids are distinct. */
  lemma SameIdSameLead(ls: seq<Lead>, p: nat, u: Lead)
    requires DistinctIds(ls) && p < |ls| && u in ls && u.id == ls[p].id
    ensures u == ls[p]
  {
    var q :| 0 <= q < |ls| && ls[q] == u;
    assert q == p;
  }

  /** The salesperson id the i-th unassigned lead is given. */
  function AssigneeOf(us: seq<Lead>, sps: seq<Salesperson>, i: nat): string
    requires |sps| > 0 && i < |us|
  {
    TargetInRange(i, |us|, |sps|);
    sps[Target(i, |us|, |sps|)].id
  }

  /** The auto-assign update is a full copy of the lead with only the assignee replaced. */
  lemma AssignPatchIsCopy(l: Lead, salespersonId: string)
    ensures AssignPatch(l, salespersonId) == PatchOf(l.(assignedTo := Some(salespersonId)))
  {
  }

  /** The assignments keep the list's length and every position's id. */
  lemma {:induction false} AssignPrefixShape(ls: seq<Lead>, us: seq<Lead>, sps: seq<Salesperson>, k: nat)
    requires |sps| > 0 && k <= |us|
    ensures var r := AssignPrefix(ls, us, sps, k);
      |r| == |ls| && forall p :: 0 <= p < |ls| ==> r[p].id == ls[p].id
  {
    if k > 0 {
      AssignPrefixShape(ls, us, sps, k - 1);
      AssignPrefixStep(ls, us, sps, k - 1);
    }
  }

  /** The lead at position `p` after the first `k` assignments. */
  function LeadAfter(ls: seq<Lead>, us: seq<Lead>, sps: seq<Salesperson>, k: nat, p: nat): Lead
    requires |sps| > 0 && k <= |us| && p < |ls|
  {
    AssignPrefixShape(ls, us, sps, k);
    AssignPrefix(ls, us, sps, k)[p]
  }

  /** One step seen at position `p`: the lead there is merged with the update iff its id is the step's. */
  lemma AssignPrefixStepAt(ls: seq<Lead>, us: seq<Lead>, sps: seq<Salesperson>, k: nat, p: nat)
    requires |sps| > 0 && k < |us| && p < |ls|
    ensures LeadAfter(ls, us, sps, k, p).id == ls[p].id
    ensures LeadAfter(ls, us, sps, k + 1, p) ==
      if ls[p].id == us[k].id then MergeLead(LeadAfter(ls, us, sps, k, p), AssignPatch(us[k], AssigneeOf(us, sps, k)))
      else LeadAfter(ls, us, sps, k, p)
  {
    AssignPrefixShape(ls, us, sps, k);
    AssignPrefixStep(ls, us, sps, k);
  }

  /** Steps `k0 .. k - 1` leave position `p` alone when none of those leads has its id. */
  lemma {:induction false} AssignPrefixUntouched(ls: seq<Lead>, us: seq<Lead>, sps: seq<Salesperson>,
                                                 k0: nat, k: nat, p: nat)
    requires |sps| > 0 && k0 <= k <= |us| && p < |ls|
    requires forall i :: k0 <= i < k ==> us[i].id != ls[p].id
    ensures LeadAfter(ls, us, sps, k, p) == LeadAfter(ls, us, sps, k0, p)
  {
    if k > k0 {
      AssignPrefixUntouched(ls, us, sps, k0, k - 1, p);
      AssignPrefixStepAt(ls, us, sps, k - 1, p);
    }
  }

  /** The step for the i-th unassigned lead gives the lead with its id exactly the new assignee. */
  lemma AssignPrefixHit(ls: seq<Lead>, sps: seq<Salesperson>, i: nat, p: nat)
    requires |sps| > 0 && DistinctIds(ls) && i < |UnassignedLeads(ls)| && p < |ls|
    requires UnassignedLeads(ls)[i].id == ls[p].id
    ensures var us := UnassignedLeads(ls);
      LeadAfter(ls, us, sps, i + 1, p) == ls[p].(assignedTo := Some(AssigneeOf(us, sps, i)))
  {
    var us := UnassignedLeads(ls);
    var u, a := us[i], AssigneeOf(us, sps, i);
    AssignPrefixShape(ls, us, sps, i);
    AssignPrefixStep(ls, us, sps, i);
    assert u in ls;
    SameIdSameLead(ls, p, u);
    AssignPatchIsCopy(u, a);
    MergeFull(AssignPrefix(ls, us, sps, i)[p], u.(assignedTo := Some(a)));
  }

  /**
   * What the first `k` assignments do to the lead at position `p` (lead ids distinct):
   * if it is the i-th unassigned lead with i < k, only its `assignedTo` changes, to
   * the salesperson with index `Target(i)`; every other lead, already-assigned ones
   * included, is untouched.
   */
  lemma AssignPrefixEffect(ls: seq<Lead>, sps: seq<Salesperson>, k: nat, p: nat)
    requires |sps| > 0 && DistinctIds(ls) && k <= |UnassignedLeads(ls)| && p < |ls|
    ensures var us := UnassignedLeads(ls);
      (forall i :: 0 <= i < k && us[i].id == ls[p].id ==>
         LeadAfter(ls, us, sps, k, p) == ls[p].(assignedTo := Some(AssigneeOf(us, sps, i))))
      && ((forall i :: 0 <= i < k ==> us[i].id != ls[p].id) ==> LeadAfter(ls, us, sps, k, p) == ls[p])
  {
    var us := UnassignedLeads(ls);
    forall i | 0 <= i < k && us[i].id == ls[p].id
      ensures LeadAfter(ls, us, sps, k, p) == ls[p].(assignedTo := Some(AssigneeOf(us, sps, i)))
    {
      AssignPrefixHitStays(ls, sps, i, k, p);
    }
    if forall i :: 0 <= i < k ==> us[i].id != ls[p].id {
      AssignPrefixUntouched(ls, us, sps, 0, k, p);
    }
  }

  lemma LaterIdsDiffer(us: seq<Lead>, i: nat, k: nat, id: string)
    requires DistinctIds(us) && i < k <= |us| && us[i].id == id
    ensures forall j :: i + 1 <= j < k ==> us[j].id != id
  {
  }

  /** Once the lead at `p` is assigned by step `i`, the later steps leave it so. */
  lemma AssignPrefixHitStays(ls: seq<Lead>, sps: seq<Salesperson>, i: nat, k: nat, p: nat)
    requires |sps| > 0 && DistinctIds(ls) && i < k <= |UnassignedLeads(ls)| && p < |ls|
    requires UnassignedLeads(ls)[i].id == ls[p].id
    ensures var us := UnassignedLeads(ls);
      LeadAfter(ls, us, sps, k, p) == ls[p].(assignedTo := Some(AssigneeOf(us, sps, i)))
  {
    var us := UnassignedLeads(ls);
    assert LeadAfter(ls, us, sps, k, p) == LeadAfter(ls, us, sps, i + 1, p) by {
      UnassignedDistinct(ls);
      LaterIdsDiffer(us, i, k, ls[p].id);
      AssignPrefixUntouched(ls, us, sps, i + 1, k, p);
    }
    AssignPrefixHit(ls, sps, i, p);
  }

  /** How many of the first `n` indices map to block `j` when blocks hold `per` indices. */
  function Share(n: nat, per: nat, j: nat): nat
    requires per > 0
  {
    if n == 0 then 0 else Share(n - 1, per, j) + (if (n - 1) / per == j then 1 else 0)
  }

  /** `x / per == j` exactly when `x` lies in the j-th block of `per` consecutive indices. */
  lemma DivBlock(x: nat, per: nat, j: nat)
    requires per > 0
    ensures x / per == j <==> j * per <= x < j * per + per
  {
    if j * per <= x < j * per + per {
      DivUnique(x, per, j, x - j * per);
    }
    if x / per == j {
      assert x == j * per + x % per;
    }
  }

  /** Block `j` receives `min(per, n - j * per)` indices when that is positive, else none. */
  lemma {:induction false} ShareClosedForm(n: nat, per: nat, j: nat)
    requires per > 0
    ensures Share(n, per, j) == if n <= j * per then 0 else if n - j * per < per then n - j * per else per
  {
    if n > 0 {
      ShareClosedForm(n - 1, per, j);
      DivBlock(n - 1, per, j);
    }
  }

  /** No salesperson gets more than `ceil(n / m)` of the `n` unassigned leads. */
  lemma ShareBound(n: nat, m: nat, j: nat)
    requires m > 0
    ensures LeadsPerPerson(n, m) > 0 ==> Share(n, LeadsPerPerson(n, m), j) <= LeadsPerPerson(n, m)
  {
    if LeadsPerPerson(n, m) > 0 {
      ShareClosedForm(n, LeadsPerPerson(n, m), j);
    }
  }

  /** A later salesperson can get nothing: five leads over four salespersons go 2, 2, 1, 0. */
  lemma LastSalespersonCanGetNone()
    ensures LeadsPerPerson(5, 4) == 2
    ensures Share(5, 2, 0) == 2 && Share(5, 2, 1) == 2 && Share(5, 2, 2) == 1 && Share(5, 2, 3) == 0
  {
    ShareClosedForm(5, 2, 0);
    ShareClosedForm(5, 2, 1);
    ShareClosedForm(5, 2, 2);
    ShareClosedForm(5, 2, 3);
  }

  // ---------------------------------------------------------------------------
  // List-field editors of the lead form

  datatype ArrayField = PhoneNumbers | Actions | Links | Locations | CompanyIndustries | CompanyKeywords

  function GetArray(f: LeadInput, field: ArrayField): seq<string> {
    match field
    case PhoneNumbers => f.phoneNumbers
    case Actions => f.actions
    case Links => f.links
    case Locations => f.locations
    case CompanyIndustries => f.companyIndustries
    case CompanyKeywords => f.companyKeywords
  }

  /** `{ ...prev, [field]: xs }`. */
  function SetArray(f: LeadInput, field: ArrayField, xs: seq<string>): (r: LeadInput)
    ensures GetArray(r, field) == xs
    ensures forall g :: g != field ==> GetArray(r, g) == GetArray(f, g)
    ensures r.name == f.name && r.email == f.email && r.assignedTo == f.assignedTo && r.status == f.status
  {
    match field
    case PhoneNumbers => f.(phoneNumbers := xs)
    case Actions => f.(actions := xs)
    case Links => f.(links := xs)
    case Locations => f.(locations := xs)
    case CompanyIndustries => f.(companyIndustries := xs)
    case CompanyKeywords => f.(companyKeywords := xs)
  }

  /** `xs.map((item, i) => i === index ? value : item)`. */
  function UpdateItem(xs: seq<string>, index: int, value: string): (r: seq<string>)
    ensures |r| == |xs|
    ensures forall i :: 0 <= i < |xs| ==> r[i] == if i == index then value else xs[i]
  {
    seq(|xs|, i requires 0 <= i < |xs| => if i == index then value else xs[i])
  }

  /** An index outside the list changes nothing. */
  lemma UpdateItemOutOfRange(xs: seq<string>, index: int, value: string)
    requires index < 0 || index >= |xs|
    ensures UpdateItem(xs, index, value) == xs
  {
  }

  /** `[...xs, ""]`. */
  function AddItem(xs: seq<string>): (r: seq<string>)
    ensures |r| == |xs| + 1 && r[..|xs|] == xs && r[|xs|] == ""
  {
    xs + [""]
  }

  /** Positions `from, from + 1, ...` of `xs` that differ from `index`: the filter's callback. */
  function KeepOthers(xs: seq<string>, index: int, from: int): seq<string> {
    if xs == [] then [] else (if from != index then [xs[0]] else []) + KeepOthers(xs[1..], index, from + 1)
  }

  /** `xs.filter((_, i) => i !== index)`. */
  function RemoveItem(xs: seq<string>, index: int): seq<string> {
    KeepOthers(xs, index, 0)
  }

  lemma {:induction false} KeepOthersSlices(xs: seq<string>, index: int, from: int)
    ensures KeepOthers(xs, index, from) ==
      if from <= index < from + |xs| then xs[..index - from] + xs[index - from + 1..] else xs
  {
    if xs != [] {
      KeepOthersSlices(xs[1..], index, from + 1);
      if from == index {
        assert xs[..0] == [];
      } else if from < index < from + |xs| {
        assert xs[..index - from] == [xs[0]] + xs[1..][..index - from - 1];
        assert xs[index - from + 1..] == xs[1..][index - from..];
      } else {
        assert xs == [xs[0]] + xs[1..];
      }
    }
  }

  /** Removing deletes exactly position `index` and keeps the rest in order; out of range it changes nothing. */
  lemma RemoveItemSpec(xs: seq<string>, index: int)
    ensures RemoveItem(xs, index) == if 0 <= index < |xs| then xs[..index] + xs[index + 1..] else xs
    ensures 0 <= index < |xs| ==> |RemoveItem(xs, index)| == |xs| - 1
  {
    KeepOthersSlices(xs, index, 0);
  }

  /** Removing the blank entry just added restores the list. */
  lemma RemoveAddedItem(xs: seq<string>)
    ensures RemoveItem(AddItem(xs), |xs|) == xs
  {
    RemoveItemSpec(AddItem(xs), |xs|);
    assert AddItem(xs)[..|xs|] == xs;
  }

  // ---------------------------------------------------------------------------
  // Visible leads and salesperson names

  /** `assignedLeads`: admins see every lead, everybody else the leads assigned to them. */
  function AssignedLeads(user: Option<AuthUser>, leads: seq<Lead>): seq<Lead> {
    if HasRole(user, "admin") then leads else Filter(leads, (l: Lead) => AssignedTo(l, user))
  }

  /** A user the authentication context builds is never an admin, so the page filters by assignee. */
  lemma SessionUserSeesOwnLeads(u: AuthUser, leads: seq<Lead>)
    requires u.role.None?
    ensures AssignedLeads(Some(u), leads) == Filter(leads, (l: Lead) => l.assignedTo == Some(u.id))
  {
    FilterSame(leads, (l: Lead) => AssignedTo(l, Some(u)), (l: Lead) => l.assignedTo == Some(u.id));
  }

  /** The table's assignee column: "-" for no id, no match or an empty name. */
  function SalespersonLabel(sps: seq<Salesperson>, id: Option<string>): (r: string)
    ensures !Truthy(id) ==> r == "-"
    ensures Truthy(id) && (forall i :: 0 <= i < |sps| ==> sps[i].id != id.value) ==> r == "-"
    ensures Truthy(id) ==>
      forall i :: 0 <= i < |sps| && sps[i].id == id.value && (forall j :: 0 <= j < i ==> sps[j].id != id.value)
        ==> r == if sps[i].name != "" then sps[i].name else "-"
  {
    if !Truthy(id) then "-"
    else match FindSalesperson(sps, id.value)
      case None => "-"
      case Some(s) => if s.name != "" then s.name else "-"
  }

  // ---------------------------------------------------------------------------
  // Lead form and row handlers

  /**
   * The form's state. Its declared type is `Omit<Lead, "id" | "createdAt">`, but
   * `setFormData(lead)` stores the whole lead, so an edited lead's `id` and `createdAt`
   * stay in the form until it is reset.
   */
  datatype LeadFormData = LeadFormData(input: LeadInput, id: Option<string>, createdAt: Option<string>)

  function EmptyForm(user: Option<AuthUser>): (f: LeadFormData)
    ensures f.input.name == "" && f.input.phoneNumbers == [""] && f.input.status == Some("Not lifted")
    ensures f.input.assignedTo.Some? <==> HasRole(user, "salesperson")
    ensures f.id.None? && f.createdAt.None?
  {
    LeadFormData(
      LeadInput("", "", "", "", [""], [""], [""], [""], "", [""], [""],
                if HasRole(user, "salesperson") then Some(user.value.id) else None,
                Some("Not lifted"), Some(""), Some("")),
      None, None)
  }

  /** The lead's fields other than `id` and `createdAt`. */
  function InputOf(l: Lead): LeadInput {
    LeadInput(l.name, l.jobTitle, l.company, l.email, l.phoneNumbers, l.actions, l.links, l.locations,
              l.companyEmployees, l.companyIndustries, l.companyKeywords, l.assignedTo, l.status,
              l.note, l.nextReminderDate)
  }

  /** `updateLead(editingId, formData)` spreads the whole form: its fields, and `id` and `createdAt` when it holds them. */
  function PatchOfForm(f: LeadFormData): LeadPatch {
    PatchOfInput(f.input).(id := f.id, createdAt := f.createdAt)
  }

  /** `setFormData(lead)`: the form holds the whole lead, so an untouched form spread over any lead gives this lead back. */
  function FormOf(l: Lead): (f: LeadFormData)
    ensures f.id == Some(l.id) && f.createdAt == Some(l.createdAt)
    ensures forall m :: MergeLead(m, PatchOfForm(f)) == l
  {
    LeadFormData(InputOf(l), Some(l.id), Some(l.createdAt))
  }

  /**
   * Saving an edit of `l` turns every stored lead with `l`'s id into `l` with the form's
   * fields: each such lead takes `l`'s `id` and `createdAt`, even one that had another
   * creation time, and the other leads stay as they were.
   */
  lemma SavedEditCopiesEditedLead(leads: seq<Lead>, l: Lead, input: LeadInput)
    ensures var r := UpdateLeads(leads, l.id, PatchOfForm(FormOf(l).(input := input)));
      |r| == |leads|
      && (forall i :: 0 <= i < |leads| && leads[i].id == l.id ==>
            r[i] == MergeLead(l, PatchOfInput(input)) && r[i].createdAt == l.createdAt)
      && (forall i :: 0 <= i < |leads| && leads[i].id != l.id ==> r[i] == leads[i])
  {
    var p := PatchOfForm(FormOf(l).(input := input));
    forall i | 0 <= i < |leads| && leads[i].id == l.id
      ensures UpdateLeads(leads, l.id, p)[i] == MergeLead(l, PatchOfInput(input))
    {
      assert MergeLead(leads[i], p) == MergeLead(l, PatchOfInput(input));
    }
  }

  datatype SubmitOutcome = NameRequired | Added | Updated | SaveFailed

  datatype HandlerOutcome = Refused | NotFound | NotConfirmed | Done | Failed

  class LeadForm {
    const user: Option<AuthUser>
    var formData: LeadFormData
    var editingId: Option<string>
    var showForm: bool
    var isSubmitting: bool

    constructor (user: Option<AuthUser>)
      ensures this.user == user && formData == EmptyForm(user) && editingId.None? && !showForm && !isSubmitting
    {
      this.user := user;
      formData := EmptyForm(user);
      editingId := None;
      showForm := false;
      isSubmitting := false;
    }

    method UpdateArrayField(field: ArrayField, index: int, value: string)
      modifies this
      ensures formData == old(formData).(input := SetArray(old(formData.input), field, UpdateItem(GetArray(old(formData.input), field), index, value)))
      ensures editingId == old(editingId) && showForm == old(showForm) && isSubmitting == old(isSubmitting)
    {
      formData := formData.(input := SetArray(formData.input, field, UpdateItem(GetArray(formData.input, field), index, value)));
    }

    method AddArrayField(field: ArrayField)
      modifies this
      ensures formData == old(formData).(input := SetArray(old(formData.input), field, AddItem(GetArray(old(formData.input), field))))
      ensures editingId == old(editingId) && showForm == old(showForm) && isSubmitting == old(isSubmitting)
    {
      formData := formData.(input := SetArray(formData.input, field, AddItem(GetArray(formData.input, field))));
    }

    method RemoveArrayField(field: ArrayField, index: int)
      modifies this
      ensures formData == old(formData).(input := SetArray(old(formData.input), field, RemoveItem(GetArray(old(formData.input), field), index)))
      ensures editingId == old(editingId) && showForm == old(showForm) && isSubmitting == old(isSubmitting)
    {
      formData := formData.(input := SetArray(formData.input, field, RemoveItem(GetArray(formData.input, field), index)));
    }

    /**
     * `handleSubmit`: a name blank after trimming is refused before any store call;
     * otherwise an edit (a truthy `editingId`) updates and anything else adds.
     * Success resets the form and closes it; failure keeps everything. `isSubmitting`
     * is set while the store call is pending and cleared however it ends.
     */
    method Submit(store: Store, addReply: Reply<Lead>, updateOk: bool) returns (outcome: SubmitOutcome)
      modifies this, store
      ensures store.salespersons == old(store.salespersons)
      ensures IsBlank(old(formData.input.name)) ==>
        outcome == NameRequired && store.leads == old(store.leads)
        && formData == old(formData) && editingId == old(editingId) && showForm == old(showForm)
        && isSubmitting == old(isSubmitting)
      ensures !IsBlank(old(formData.input.name)) && Truthy(old(editingId)) ==>
        store.leads == (if updateOk then UpdateLeads(old(store.leads), old(editingId).value, PatchOfForm(old(formData)))
                        else old(store.leads))
        && outcome == (if updateOk then Updated else SaveFailed)
      ensures !IsBlank(old(formData.input.name)) && !Truthy(old(editingId)) ==>
        store.leads == (if addReply.Returned? then [addReply.value] + old(store.leads) else old(store.leads))
        && outcome == (if addReply.Returned? then Added else SaveFailed)
      ensures outcome == Updated || outcome == Added ==>
        formData == EmptyForm(user) && !showForm && (outcome == Updated ==> editingId.None?)
        && (outcome == Added ==> editingId == old(editingId))
      ensures outcome == SaveFailed ==>
        formData == old(formData) && editingId == old(editingId) && showForm == old(showForm)
      ensures outcome != NameRequired ==> !isSubmitting
    {
      if IsBlank(formData.input.name) {
        return NameRequired;
      }
      isSubmitting := true;
      if Truthy(editingId) {
        outcome := SaveEdit(store, updateOk);
      } else {
        outcome := SaveNew(store, addReply);
      }
    }

    /** The update branch of `handleSubmit`: the whole form is spread into the leads with the edited id; the `finally` block then clears `isSubmitting`. */
    method SaveEdit(store: Store, updateOk: bool) returns (outcome: SubmitOutcome)
      requires editingId.Some?
      modifies this, store
      ensures store.salespersons == old(store.salespersons)
      ensures store.leads == (if updateOk then UpdateLeads(old(store.leads), old(editingId).value, PatchOfForm(old(formData)))
                              else old(store.leads))
      ensures updateOk ==> outcome == Updated && formData == EmptyForm(user) && editingId.None? && !showForm
      ensures !updateOk ==>
        outcome == SaveFailed && formData == old(formData) && editingId == old(editingId) && showForm == old(showForm)
      ensures !isSubmitting
    {
      var ok := store.UpdateLead(editingId.value, PatchOfForm(formData), updateOk);
      if ok {
        formData, editingId, showForm := EmptyForm(user), None, false;
        outcome := Updated;
      } else {
        outcome := SaveFailed;
      }
      isSubmitting := false;
    }

    /** The add branch of `handleSubmit`: the created lead goes first in the list; the `finally` block then clears `isSubmitting`. */
    method SaveNew(store: Store, addReply: Reply<Lead>) returns (outcome: SubmitOutcome)
      modifies this, store
      ensures store.salespersons == old(store.salespersons)
      ensures store.leads == (if addReply.Returned? then [addReply.value] + old(store.leads) else old(store.leads))
      ensures addReply.Returned? ==> outcome == Added && formData == EmptyForm(user) && !showForm
      ensures !addReply.Returned? ==> outcome == SaveFailed && formData == old(formData) && showForm == old(showForm)
      ensures editingId == old(editingId) && !isSubmitting
    {
      var r := store.AddLead(addReply);
      if r.Returned? {
        formData, showForm := EmptyForm(user), false;
        outcome := Added;
      } else {
        outcome := SaveFailed;
      }
      isSubmitting := false;
    }

    /** `handleEditLead`: only a lead the user may edit is loaded into the form, whole. */
    method EditLead(lead: Lead) returns (outcome: HandlerOutcome)
      modifies this
      ensures !RoleAccess.CanEditLead(user, lead) ==>
        outcome == Refused && formData == old(formData) && editingId == old(editingId) && showForm == old(showForm)
      ensures RoleAccess.CanEditLead(user, lead) ==>
        outcome == Done && formData == FormOf(lead) && editingId == Some(lead.id) && showForm
      ensures isSubmitting == old(isSubmitting)
    {
      if !RoleAccess.CanEditLead(user, lead) {
        return Refused;
      }
      formData := FormOf(lead);
      editingId := Some(lead.id);
      showForm := true;
      return Done;
    }

    method Cancel()
      modifies this
      ensures formData == EmptyForm(user) && editingId.None? && !showForm
      ensures isSubmitting == old(isSubmitting)
    {
      showForm := false;
      editingId := None;
      formData := EmptyForm(user);
    }

    /** `handleDeleteLead`: a missing or non-deletable lead is refused; otherwise the user must confirm. */
    method DeleteLead(store: Store, id: string, confirmed: bool, backendOk: bool) returns (outcome: HandlerOutcome)
      modifies store
      ensures store.salespersons == old(store.salespersons)
      ensures var found := FindLead(old(store.leads), id);
        if found.None? || !RoleAccess.CanDeleteLead(user, found.value) then
          outcome == Refused && store.leads == old(store.leads)
        else if !confirmed then outcome == NotConfirmed && store.leads == old(store.leads)
        else if backendOk then outcome == Done && store.leads == DeleteLeads(old(store.leads), id)
        else outcome == Failed && store.leads == old(store.leads)
    {
      var lead := FindLead(store.leads, id);
      if lead.None? || !RoleAccess.CanDeleteLead(user, lead.value) {
        return Refused;
      }
      if !confirmed {
        return NotConfirmed;
      }
      var ok := store.DeleteLead(id, backendOk);
      outcome := if ok then Done else Failed;
    }
  }

  /** The update sent when a row's assignee is changed; an empty choice becomes `undefined`. */
  function AssignChangePatch(l: Lead, salesPersonId: string): (p: LeadPatch)
    ensures p.assignedTo == Some(EmptyToNone(salesPersonId))
    ensures salesPersonId == "" ==> p.assignedTo == Some(None)
  {
    PatchOf(l).(assignedTo := Some(EmptyToNone(salesPersonId)))
  }

  /** `handleAssignChange`: an unknown lead id sends nothing; errors are reported, not re-thrown. */
  method AssignChange(store: Store, leadId: string, salesPersonId: string, backendOk: bool)
    returns (outcome: HandlerOutcome)
    modifies store
    ensures store.salespersons == old(store.salespersons)
    ensures var found := FindLead(old(store.leads), leadId);
      if found.None? then outcome == NotFound && store.leads == old(store.leads)
      else if backendOk then
        outcome == Done
        && store.leads == UpdateLeads(old(store.leads), leadId, AssignChangePatch(found.value, salesPersonId))
      else outcome == Failed && store.leads == old(store.leads)
  {
    var lead := FindLead(store.leads, leadId);
    if lead.None? {
      return NotFound;
    }
    var ok := store.UpdateLead(leadId, AssignChangePatch(lead.value, salesPersonId), backendOk);
    outcome := if ok then Done else Failed;
  }

  /** `handleStatusChange`: the lead with its status replaced. */
  method StatusChange(store: Store, leadId: string, newStatus: string, backendOk: bool)
    returns (outcome: HandlerOutcome)
    modifies store
    ensures store.salespersons == old(store.salespersons)
    ensures var found := FindLead(old(store.leads), leadId);
      if found.None? then outcome == NotFound && store.leads == old(store.leads)
      else if backendOk then
        outcome == Done
        && store.leads == UpdateLeads(old(store.leads), leadId, PatchOf(found.value).(status := Some(Some(newStatus))))
      else outcome == Failed && store.leads == old(store.leads)
  {
    var lead := FindLead(store.leads, leadId);
    if lead.None? {
      return NotFound;
    }
    var ok := store.UpdateLead(leadId, PatchOf(lead.value).(status := Some(Some(newStatus))), backendOk);
    outcome := if ok then Done else Failed;
  }

  /** A successful assignee change leaves the lead with exactly the chosen assignee and nothing else changed. */
  lemma AssignChangeEffect(l: Lead, salesPersonId: string)
    ensures MergeLead(l, AssignChangePatch(l, salesPersonId)) == l.(assignedTo := EmptyToNone(salesPersonId))
  {
  }
}
