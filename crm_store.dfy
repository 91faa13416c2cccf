/**
 * The lead and salesperson store (client/hooks/useCRMStore.ts). Each operation
 * awaits the backend first and changes the local list only when that call
 * returns; when it throws, the list is left alone and the error is re-thrown
 * (reported here as a failed outcome). The backend's answer is a parameter.
 */
module CrmStore {
  import opened Wrappers
  import opened Lists
  import opened CrmTypes

  /** `prev.map(lead => lead.id === id ? { ...lead, ...updates } : lead)`. */
  function UpdateLeads(ls: seq<Lead>, id: string, updates: LeadPatch): (r: seq<Lead>)
    ensures |r| == |ls|
    ensures forall i :: 0 <= i < |ls| && ls[i].id == id ==> r[i] == MergeLead(ls[i], updates)
    ensures forall i :: 0 <= i < |ls| && ls[i].id != id ==> r[i] == ls[i]
  {
    MapWhere(ls, (l: Lead) => l.id == id, (l: Lead) => MergeLead(l, updates))
  }

  /** `prev.filter(lead => lead.id !== id)`. */
  function DeleteLeads(ls: seq<Lead>, id: string): (r: seq<Lead>)
    ensures forall i :: 0 <= i < |r| ==> r[i].id != id
    ensures forall i :: 0 <= i < |ls| && ls[i].id != id ==> ls[i] in r
  {
    Filter(ls, (l: Lead) => l.id != id)
  }

  function UpdateSalespersons(ss: seq<Salesperson>, id: string, updates: SalespersonPatch): (r: seq<Salesperson>)
    ensures |r| == |ss|
    ensures forall i :: 0 <= i < |ss| && ss[i].id == id ==> r[i] == MergeSalesperson(ss[i], updates)
    ensures forall i :: 0 <= i < |ss| && ss[i].id != id ==> r[i] == ss[i]
  {
    MapWhere(ss, (s: Salesperson) => s.id == id, (s: Salesperson) => MergeSalesperson(s, updates))
  }

  function DeleteSalespersons(ss: seq<Salesperson>, id: string): (r: seq<Salesperson>)
    ensures forall i :: 0 <= i < |r| ==> r[i].id != id
    ensures forall i :: 0 <= i < |ss| && ss[i].id != id ==> ss[i] in r
  {
    Filter(ss, (s: Salesperson) => s.id != id)
  }

  /** `leads.find(l => l.id === id)`. */
  function FindLead(ls: seq<Lead>, id: string): (r: Option<Lead>)
    ensures r.Some? ==> r.value in ls && r.value.id == id
    ensures r.None? <==> forall i :: 0 <= i < |ls| ==> ls[i].id != id
    ensures forall i :: 0 <= i < |ls| && ls[i].id == id && (forall j :: 0 <= j < i ==> ls[j].id != id) ==> r == Some(ls[i])
  {
    FindFirst(ls, (l: Lead) => l.id == id)
  }

  /** `salespersons.find(s => s.id === id)`. */
  function FindSalesperson(ss: seq<Salesperson>, id: string): (r: Option<Salesperson>)
    ensures r.Some? ==> r.value in ss && r.value.id == id
    ensures r.None? <==> forall i :: 0 <= i < |ss| ==> ss[i].id != id
    ensures forall i :: 0 <= i < |ss| && ss[i].id == id && (forall j :: 0 <= j < i ==> ss[j].id != id) ==> r == Some(ss[i])
  {
    FindFirst(ss, (s: Salesperson) => s.id == id)
  }

  /** An update for an id no lead has leaves the list as it was. */
  lemma UpdateUnknownLead(ls: seq<Lead>, id: string, updates: LeadPatch)
    requires forall i :: 0 <= i < |ls| ==> ls[i].id != id
    ensures UpdateLeads(ls, id, updates) == ls
  {
  }

  /** Deleting keeps exactly the other leads, each as often as before. */
  lemma DeleteLeadsCounts(ls: seq<Lead>, id: string, x: Lead)
    ensures multiset(DeleteLeads(ls, id))[x] == if x.id == id then 0 else multiset(ls)[x]
  {
    FilterMultiset(ls, (l: Lead) => l.id != id, x);
  }

  /** Deleting keeps the survivors in order: it distributes over concatenation. */
  lemma DeleteLeadsOrder(a: seq<Lead>, b: seq<Lead>, id: string)
    ensures DeleteLeads(a + b, id) == DeleteLeads(a, id) + DeleteLeads(b, id)
  {
    FilterAppend(a, b, (l: Lead) => l.id != id);
  }

  lemma DeleteSalespersonsCounts(ss: seq<Salesperson>, id: string, x: Salesperson)
    ensures multiset(DeleteSalespersons(ss, id))[x] == if x.id == id then 0 else multiset(ss)[x]
  {
    FilterMultiset(ss, (s: Salesperson) => s.id != id, x);
  }

  class Store {
    var leads: seq<Lead>
    var salespersons: seq<Salesperson>
    var isLoading: bool

    constructor ()
      ensures leads == [] && salespersons == [] && isLoading
    {
      leads, salespersons, isLoading := [], [], true;
    }

    /**
     * The load on mount. Both queries already answer `[]` on a database error
     * (see SupabaseDb), so the lists become what they return.
     */
    method Load(leadsData: seq<Lead>, salespersonsData: seq<Salesperson>)
      modifies this
      ensures leads == leadsData && salespersons == salespersonsData && !isLoading
    {
      leads, salespersons := leadsData, salespersonsData;
      isLoading := false;
    }

    method AddLead(reply: Reply<Lead>) returns (result: Reply<Lead>)
      modifies this
      ensures result == reply
      ensures reply.Returned? ==> leads == [reply.value] + old(leads)
      ensures reply.Threw? ==> leads == old(leads)
      ensures salespersons == old(salespersons) && isLoading == old(isLoading)
    {
      result := reply;
      if reply.Returned? {
        leads := [reply.value] + leads;
      }
    }

    method UpdateLead(id: string, updates: LeadPatch, backendOk: bool) returns (ok: bool)
      modifies this
      ensures ok == backendOk
      ensures leads == if backendOk then UpdateLeads(old(leads), id, updates) else old(leads)
      ensures salespersons == old(salespersons) && isLoading == old(isLoading)
    {
      ok := backendOk;
      if backendOk {
        leads := UpdateLeads(leads, id, updates);
      }
    }

    method DeleteLead(id: string, backendOk: bool) returns (ok: bool)
      modifies this
      ensures ok == backendOk
      ensures leads == if backendOk then DeleteLeads(old(leads), id) else old(leads)
      ensures salespersons == old(salespersons) && isLoading == old(isLoading)
    {
      ok := backendOk;
      if backendOk {
        leads := DeleteLeads(leads, id);
      }
    }

    method AddSalesperson(reply: Reply<Salesperson>) returns (result: Reply<Salesperson>)
      modifies this
      ensures result == reply
      ensures reply.Returned? ==> salespersons == [reply.value] + old(salespersons)
      ensures reply.Threw? ==> salespersons == old(salespersons)
      ensures leads == old(leads) && isLoading == old(isLoading)
    {
      result := reply;
      if reply.Returned? {
        salespersons := [reply.value] + salespersons;
      }
    }

    method UpdateSalesperson(id: string, updates: SalespersonPatch, backendOk: bool) returns (ok: bool)
      modifies this
      ensures ok == backendOk
      ensures salespersons == if backendOk then UpdateSalespersons(old(salespersons), id, updates)
                              else old(salespersons)
      ensures leads == old(leads) && isLoading == old(isLoading)
    {
      ok := backendOk;
      if backendOk {
        salespersons := UpdateSalespersons(salespersons, id, updates);
      }
    }

    method DeleteSalesperson(id: string, backendOk: bool) returns (ok: bool)
      modifies this
      ensures ok == backendOk
      ensures salespersons == if backendOk then DeleteSalespersons(old(salespersons), id)
                              else old(salespersons)
      ensures leads == old(leads) && isLoading == old(isLoading)
    {
      ok := backendOk;
      if backendOk {
        salespersons := DeleteSalespersons(salespersons, id);
      }
    }
  }
}
