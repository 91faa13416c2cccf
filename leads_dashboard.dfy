/**
 * The Kanban board (client/pages/LeadsDashboard.tsx): leads grouped into seven
 * stage columns, the assignee label on each card, and drag and drop, where a
 * drop onto another column sends a status update.
 */
module LeadsDashboard {
  import opened Wrappers
  import opened Text
  import opened Lists
  import opened CrmTypes
  import opened CrmStore

  const NoStage: string := "No Stage"

  /** The board's stage vocabulary, in column order. */
  const LeadStages: seq<string> := [NoStage, "Appointment Schedule", "Presentation Done", "Proposal",
                                    "Negotiation", "Evaluation", "Result"]

  /** `lead.status || "No Stage"`: the stage a lead claims to be in. */
  function ClaimedStage(l: Lead): string {
    if Truthy(l.status) then l.status.value else NoStage
  }

  /** The column a lead is shown in. */
  function ColumnOf(l: Lead): (s: string)
    ensures s in LeadStages
    ensures ClaimedStage(l) in LeadStages ==> s == ClaimedStage(l)
    ensures ClaimedStage(l) !in LeadStages ==> s == NoStage
    ensures !Truthy(l.status) ==> s == NoStage
  {
    var claimed := ClaimedStage(l);
    if claimed in LeadStages then claimed else NoStage
  }

  /** The leads of one column, in list order. */
  function Column(leads: seq<Lead>, stage: string): seq<Lead> {
    Filter(leads, (l: Lead) => ColumnOf(l) == stage)
  }

  /** The record that starts with one empty array per stage. */
  const EmptyGroups: map<string, seq<Lead>> :=
    map[NoStage := [], "Appointment Schedule" := [], "Presentation Done" := [], "Proposal" := [],
        "Negotiation" := [], "Evaluation" := [], "Result" := []]

  /** The record's keys are exactly the seven stages. */
  lemma GroupKeysAreStages()
    ensures forall s :: s in EmptyGroups <==> s in LeadStages
  {
  }

  /**
   * The `forEach` callback: pushes the lead onto the array of its claimed stage
   * when the record has one, and onto "No Stage" otherwise.
   */
  method PushLead(groups: map<string, seq<Lead>>, ghost seen: seq<Lead>, lead: Lead)
    returns (next: map<string, seq<Lead>>)
    requires groups.Keys == EmptyGroups.Keys
    requires forall s :: s in groups ==> groups[s] == Column(seen, s)
    ensures next.Keys == EmptyGroups.Keys
    ensures forall s :: s in next ==> next[s] == Column(seen + [lead], s)
  {
    GroupKeysAreStages();
    var status := if Truthy(lead.status) then lead.status.value else NoStage;
    if status in groups {
      GroupStep(groups, seen, lead, status);
      next := groups[status := groups[status] + [lead]];
    } else {
      GroupStep(groups, seen, lead, NoStage);
      next := groups[NoStage := groups[NoStage] + [lead]];
    }
  }

  /** `leadsGroupedByStatus`: one array per stage, filled in list order. */
  method GroupByStatus(leads: seq<Lead>) returns (groups: map<string, seq<Lead>>)
    ensures forall s :: s in groups <==> s in LeadStages
    ensures forall s :: s in LeadStages ==> groups[s] == Column(leads, s)
  {
    groups := EmptyGroups;
    for i := 0 to |leads|
      invariant groups.Keys == EmptyGroups.Keys
      invariant forall s :: s in groups ==> groups[s] == Column(leads[..i], s)
    {
      assert leads[..i + 1] == leads[..i] + [leads[i]];
      groups := PushLead(groups, leads[..i], leads[i]);
    }
    assert leads[..|leads|] == leads;
    GroupKeysAreStages();
  }

  /** Pushing a lead onto its own column keeps every column equal to the filter of the leads seen so far. */
  lemma GroupStep(groups: map<string, seq<Lead>>, seen: seq<Lead>, lead: Lead, key: string)
    requires key == ColumnOf(lead) && key in groups
    requires forall s :: s in groups ==> groups[s] == Column(seen, s)
    ensures var next := groups[key := groups[key] + [lead]];
      forall s :: s in next ==> next[s] == Column(seen + [lead], s)
  {
    forall s {
      FilterSnoc(seen, lead, (l: Lead) => ColumnOf(l) == s);
    }
  }

  /** A lead appears in its own column exactly as often as in the list, and in no other column. */
  lemma ExactlyOneColumn(leads: seq<Lead>, x: Lead, stage: string)
    ensures multiset(Column(leads, stage))[x] == if stage == ColumnOf(x) then multiset(leads)[x] else 0
  {
    FilterMultiset(leads, (l: Lead) => ColumnOf(l) == stage, x);
  }

  /** Columns keep the leads' relative order: grouping a concatenation groups each part. */
  lemma ColumnOrder(a: seq<Lead>, b: seq<Lead>, stage: string)
    ensures Column(a + b, stage) == Column(a, stage) + Column(b, stage)
  {
    FilterAppend(a, b, (l: Lead) => ColumnOf(l) == stage);
  }

  /** A missing status, or one outside the seven stages, puts the lead under "No Stage". */
  lemma UnknownStatusGoesToNoStage(leads: seq<Lead>, i: nat)
    requires i < |leads| && (!Truthy(leads[i].status) || leads[i].status.value !in LeadStages)
    ensures leads[i] in Column(leads, NoStage)
  {
  }

  function ColumnsTotal(leads: seq<Lead>, stages: seq<string>): nat {
    if stages == [] then 0 else |Column(leads, stages[0])| + ColumnsTotal(leads, stages[1..])
  }

  function Occurrences(stages: seq<string>, s: string): nat {
    if stages == [] then 0 else (if stages[0] == s then 1 else 0) + Occurrences(stages[1..], s)
  }

  lemma {:induction false} OccurrencesDistinct(stages: seq<string>, s: string)
    requires forall i, j :: 0 <= i < j < |stages| ==> stages[i] != stages[j]
    ensures Occurrences(stages, s) == if s in stages then 1 else 0
  {
    if stages != [] {
      OccurrencesDistinct(stages[1..], s);
      if stages[0] == s {
        assert s !in stages[1..];
      }
    }
  }

  lemma {:induction false} ColumnsTotalCons(l: Lead, rest: seq<Lead>, stages: seq<string>)
    ensures ColumnsTotal([l] + rest, stages) == Occurrences(stages, ColumnOf(l)) + ColumnsTotal(rest, stages)
  {
    if stages != [] {
      ColumnsTotalCons(l, rest, stages[1..]);
      assert ([l] + rest)[1..] == rest;
    }
  }

  lemma {:induction false} ColumnsTotalNil(stages: seq<string>)
    ensures ColumnsTotal([], stages) == 0
  {
    if stages != [] {
      ColumnsTotalNil(stages[1..]);
    }
  }

  /** Over any list of distinct stages that covers every lead's column, the column sizes add up to the list's length. */
  lemma {:induction false} ColumnsTotalCovering(leads: seq<Lead>, stages: seq<string>)
    requires forall i, j :: 0 <= i < j < |stages| ==> stages[i] != stages[j]
    requires forall i :: 0 <= i < |leads| ==> ColumnOf(leads[i]) in stages
    ensures ColumnsTotal(leads, stages) == |leads|
  {
    if leads != [] {
      var l, rest := leads[0], leads[1..];
      forall i | 0 <= i < |rest| ensures ColumnOf(rest[i]) in stages {
        assert rest[i] == leads[i + 1];
      }
      ColumnsTotalCovering(rest, stages);
      ColumnsTotalCons(l, rest, stages);
      assert [l] + rest == leads;
      assert ColumnOf(l) in stages;
      OccurrencesDistinct(stages, ColumnOf(l));
    } else {
      ColumnsTotalNil(stages);
    }
  }

  /** The seven stage names are distinct, so the record has seven columns. */
  lemma StagesDistinct()
    ensures forall i, j :: 0 <= i < j < |LeadStages| ==> LeadStages[i] != LeadStages[j]
  {
    forall i, j | 0 <= i < j < |LeadStages| ensures LeadStages[i] != LeadStages[j] {
      assert |LeadStages[i]| != |LeadStages[j]| || LeadStages[i][0] != LeadStages[j][0];
    }
  }

  /** The seven column sizes add up to the number of leads. */
  lemma ColumnSizesSum(leads: seq<Lead>)
    ensures ColumnsTotal(leads, LeadStages) == |leads|
  {
    StagesDistinct();
    ColumnsTotalCovering(leads, LeadStages);
  }

  /**
   * The card's assignee label: "Unassigned" without an id, otherwise the name of
   * the first salesperson with that id, or "Unknown" when there is none or the
   * name is empty.
   */
  function SalespersonName(sps: seq<Salesperson>, assignedTo: Option<string>): (r: string)
    ensures !Truthy(assignedTo) ==> r == "Unassigned"
    ensures Truthy(assignedTo) && (forall i :: 0 <= i < |sps| ==> sps[i].id != assignedTo.value) ==> r == "Unknown"
    ensures Truthy(assignedTo) ==>
      forall i :: 0 <= i < |sps| && sps[i].id == assignedTo.value && (forall j :: 0 <= j < i ==> sps[j].id != assignedTo.value)
        ==> r == if sps[i].name != "" then sps[i].name else "Unknown"
  {
    if !Truthy(assignedTo) then "Unassigned"
    else
      var found := FindSalesperson(sps, assignedTo.value);
      if found.Some? && found.value.name != "" then found.value.name else "Unknown"
  }

  /** The drag state of the board. */
  class Board {
    var draggingLead: Option<Lead>
    var dragOverStatus: Option<string>

    constructor ()
      ensures draggingLead.None? && dragOverStatus.None?
    {
      draggingLead, dragOverStatus := None, None;
    }

    method DragStart(lead: Lead)
      modifies this
      ensures draggingLead == Some(lead) && dragOverStatus == old(dragOverStatus)
    {
      draggingLead := Some(lead);
    }

    method DragEnd()
      modifies this
      ensures draggingLead.None? && dragOverStatus.None?
    {
      draggingLead, dragOverStatus := None, None;
    }

    method DragOver(status: string)
      modifies this
      ensures dragOverStatus == Some(status) && draggingLead == old(draggingLead)
    {
      dragOverStatus := Some(status);
    }

    /** Leaving clears the highlight only when the event comes from the column itself. */
    method DragLeave(fromColumnItself: bool)
      modifies this
      ensures dragOverStatus == if fromColumnItself then None else old(dragOverStatus)
      ensures draggingLead == old(draggingLead)
    {
      if fromColumnItself {
        dragOverStatus := None;
      }
    }

    /**
     * `handleDrop`: with a dragged lead whose claimed stage differs from the target,
     * sends `{ status }` (a failure is only logged); the drag state ends cleared
     * either way. Returns whether an update was sent.
     */
    method Drop(store: Store, status: string, backendOk: bool) returns (sent: bool)
      modifies this, store
      ensures sent <==> old(draggingLead).Some? && ClaimedStage(old(draggingLead).value) != status
      ensures store.leads == if sent && backendOk then UpdateLeads(old(store.leads), old(draggingLead).value.id, StatusPatch(status))
                             else old(store.leads)
      ensures store.salespersons == old(store.salespersons)
      ensures draggingLead.None? && dragOverStatus.None?
    {
      sent := false;
      if draggingLead.None? {
        draggingLead, dragOverStatus := None, None;
        return;
      }
      var lead := draggingLead.value;
      var currentStatus := ClaimedStage(lead);
      if currentStatus != status {
        var _ := store.UpdateLead(lead.id, StatusPatch(status), backendOk);
        sent := true;
      }
      draggingLead, dragOverStatus := None, None;
    }
  }

  /** A successful drop changes only the dropped lead's status. */
  lemma DropEffect(l: Lead, status: string)
    ensures MergeLead(l, StatusPatch(status)) == l.(status := Some(status))
  {
  }

  /**
   * The comparison uses the claimed stage, not the column: a lead whose status is
   * outside the seven stages sits under "No Stage", and dropping it back onto
   * "No Stage" still sends an update.
   */
  lemma DropOntoOwnColumnCanSend(l: Lead)
    requires l.status == Some("Contacted")
    ensures ColumnOf(l) == NoStage && ClaimedStage(l) != NoStage
  {
  }
}
