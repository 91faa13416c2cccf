/**
 * The companies page (client/pages/Companies.tsx): the saved companies loaded
 * from the server's companies endpoint, a search of the company-data provider,
 * importing a search result, and deleting or editing a saved company. Companies
 * are plain objects; every request's answer is a parameter.
 */
module CompaniesPage {
  import opened Wrappers
  import opened Text
  import opened Json
  import opened Lists

  /**
   * `c.id === id`. Both sides are the raw property as the table hands it on: the
   * `Company` type declares `id: string`, but nothing checks that of a server answer,
   * so an id may be `undefined` (`None`) or any JSON value, and `undefined === undefined`.
   */
  predicate HasId(c: JsObject, id: Option<Json>) {
    Get(c, "id") == id
  }

  /** `data.companies || []`, each element read as an object. */
  function CompaniesIn(data: JsObject): (r: seq<JsObject>)
    ensures !FieldTruthy(data, "companies") ==> r == []
    ensures FieldTruthy(data, "companies") && data["companies"].JArr? ==>
      |r| == |data["companies"].items| && forall i :: 0 <= i < |r| ==> r[i] == PropsOf(data["companies"].items[i])
  {
    if FieldTruthy(data, "companies") && data["companies"].JArr? then
      var items := data["companies"].items;
      seq(|items|, i requires 0 <= i < |items| => PropsOf(items[i]))
    else []
  }

  /** The companies endpoint's answer to the page. */
  datatype LoadReply = Loaded(data: JsObject) | NotOk(statusText: string) | LoadThrew(message: string)

  /** `companies.filter(c => c.id !== id)`. */
  function WithoutCompany(companies: seq<JsObject>, id: Option<Json>): (r: seq<JsObject>)
    ensures forall i :: 0 <= i < |r| ==> !HasId(r[i], id)
    ensures forall i :: 0 <= i < |companies| && !HasId(companies[i], id) ==> companies[i] in r
  {
    Filter(companies, (c: JsObject) => !HasId(c, id))
  }

  /** Deleting keeps the other companies in order. */
  lemma WithoutCompanyOrder(a: seq<JsObject>, b: seq<JsObject>, id: Option<Json>)
    ensures WithoutCompany(a + b, id) == WithoutCompany(a, id) + WithoutCompany(b, id)
  {
    FilterAppend(a, b, (c: JsObject) => !HasId(c, id));
  }

  /** Deleting drops every company with that id and keeps each other one as often as before. */
  lemma WithoutCompanyCounts(companies: seq<JsObject>, id: Option<Json>, c: JsObject)
    ensures multiset(WithoutCompany(companies, id))[c] == if HasId(c, id) then 0 else multiset(companies)[c]
  {
    FilterMultiset(companies, (x: JsObject) => !HasId(x, id), c);
  }

  /** `companies.map(c =>c.id === id ? { ...c, ...data } : c)`. */
  function UpdateCompanies(companies: seq<JsObject>, id: Option<Json>, data: JsObject): (r: seq<JsObject>)
    ensures |r| == |companies|
    ensures forall i :: 0 <= i < |r| && !HasId(companies[i], id) ==> r[i] == companies[i]
    ensures forall i :: 0 <= i < |r| && HasId(companies[i], id) ==>
      r[i].Keys == companies[i].Keys + data.Keys
      && (forall k :: k in data ==> r[i][k] == data[k])
      && (forall k :: k in companies[i] && k !in data ==> r[i][k] == companies[i][k])
  {
    MapWhere(companies, (c: JsObject) => HasId(c, id), (c: JsObject) => Spread(c, data))
  }

  /** An update that does not touch `id` leaves a matched company matched, so ids are stable. */
  lemma UpdateKeepsIds(companies: seq<JsObject>, id: Option<Json>, data: JsObject, i: nat)
    requires i < |companies| && "id" !in data
    ensures HasId(UpdateCompanies(companies, id, data)[i], id) <==> HasId(companies[i], id)
  {
    var r := UpdateCompanies(companies, id, data);
    if HasId(companies[i], id) && "id" in companies[i] {
      assert r[i]["id"] == companies[i]["id"];
    }
  }

  /**
   * An update sent for a company without an id (`onUpdateCompany(undefined, data)`)
   * is merged into every saved company that has no id.
   */
  lemma IdLessUpdateMergesAll(companies: seq<JsObject>, data: JsObject, j: nat)
    requires j < |companies| && "id" !in companies[j]
    ensures UpdateCompanies(companies, None, data)[j] == Spread(companies[j], data)
  {
    var r := UpdateCompanies(companies, None, data);
    assert HasId(companies[j], None);
    assert r[j].Keys == Spread(companies[j], data).Keys;
  }

  /** The search request: an empty filter is sent as `undefined`, and the limit is always 50. */
  datatype SearchRequest = SearchRequest(name: string, industry: Option<string>, employeeSize: Option<string>, limit: int)

  function SearchRequestOf(query: string, industry: string, employeeSize: string): (r: SearchRequest)
    ensures r.name == query && r.limit == 50
    ensures r.industry.None? <==> industry == ""
    ensures r.employeeSize.None? <==> employeeSize == ""
    ensures r.industry.Some? ==> r.industry.value == industry
    ensures r.employeeSize.Some? ==> r.employeeSize.value == employeeSize
  {
    SearchRequest(query, EmptyToNone(industry), EmptyToNone(employeeSize), 50)
  }

  class Page {
    var savedCompanies: seq<JsObject>
    var isLoadingSavedCompanies: bool
    var savedCompaniesError: Option<string>
    var searchQuery: string
    var searchIndustry: string
    var searchEmployeeSize: string
    var searchResults: seq<JsObject>
    var isSearching: bool
    var importedIds: set<string>

    constructor ()
      ensures savedCompanies == [] && isLoadingSavedCompanies && savedCompaniesError.None?
      ensures searchQuery == "" && searchIndustry == "" && searchEmployeeSize == ""
      ensures searchResults == [] && !isSearching && importedIds == {}
    {
      savedCompanies, isLoadingSavedCompanies, savedCompaniesError := [], true, None;
      searchQuery, searchIndustry, searchEmployeeSize := "", "", "";
      searchResults, isSearching, importedIds := [], false, {};
    }

    /**
     * `loadSavedCompanies`: the error is cleared first; an answer replaces the
     * list (an empty one is announced); a failure keeps the list and records
     * the message.
     */
    method LoadSavedCompanies(reply: LoadReply) returns (noneFound: bool)
      modifies this
      ensures reply.Loaded? ==>
        savedCompanies == CompaniesIn(reply.data) && savedCompaniesError.None? && noneFound == (CompaniesIn(reply.data) == [])
      ensures reply.NotOk? ==>
        savedCompanies == old(savedCompanies) && savedCompaniesError == Some("Failed to fetch companies: " + reply.statusText) && !noneFound
      ensures reply.LoadThrew? ==>
        savedCompanies == old(savedCompanies) && savedCompaniesError == Some(reply.message) && !noneFound
      ensures !isLoadingSavedCompanies
      ensures searchResults == old(searchResults) && importedIds == old(importedIds) && isSearching == old(isSearching)
      ensures searchQuery == old(searchQuery) && searchIndustry == old(searchIndustry) && searchEmployeeSize == old(searchEmployeeSize)
    {
      isLoadingSavedCompanies, savedCompaniesError := true, None;
      noneFound := false;
      match reply {
        case Loaded(data) =>
          savedCompanies := CompaniesIn(data);
          noneFound := |savedCompanies| == 0;
        case NotOk(statusText) =>
          savedCompaniesError := Some("Failed to fetch companies: " + statusText);
        case LoadThrew(message) =>
          savedCompaniesError := Some(message);
      }
      isLoadingSavedCompanies := false;
    }

    /** `handleSearch`: a blank query is refused with no request; an answer replaces the results, a failure keeps them. */
    method Search(reply: Reply<seq<JsObject>>) returns (request: Option<SearchRequest>)
      modifies this
      ensures IsBlank(old(searchQuery)) ==> request.None? && searchResults == old(searchResults) && isSearching == old(isSearching)
      ensures !IsBlank(old(searchQuery)) ==>
        request == Some(SearchRequestOf(old(searchQuery), old(searchIndustry), old(searchEmployeeSize)))
        && searchResults == (if reply.Returned? then reply.value else old(searchResults))
        && !isSearching
      ensures savedCompanies == old(savedCompanies) && importedIds == old(importedIds)
      ensures savedCompaniesError == old(savedCompaniesError) && isLoadingSavedCompanies == old(isLoadingSavedCompanies)
      ensures searchQuery == old(searchQuery) && searchIndustry == old(searchIndustry) && searchEmployeeSize == old(searchEmployeeSize)
    {
      if IsBlank(searchQuery) {
        return None;
      }
      isSearching := true;
      request := Some(SearchRequestOf(searchQuery, searchIndustry, searchEmployeeSize));
      if reply.Returned? {
        searchResults := reply.value;
      }
      isSearching := false;
    }

    /** `handleImportCompany`: the id is marked imported only after the import succeeds; the set never shrinks. */
    method ImportCompany(companyId: string, backendOk: bool)
      modifies this
      ensures importedIds == (if backendOk then old(importedIds) + {companyId} else old(importedIds))
      ensures old(importedIds) <= importedIds
      ensures savedCompanies == old(savedCompanies) && searchResults == old(searchResults)
      ensures savedCompaniesError == old(savedCompaniesError) && isLoadingSavedCompanies == old(isLoadingSavedCompanies)
      ensures isSearching == old(isSearching)
    {
      if backendOk {
        importedIds := importedIds + {companyId};
      }
    }

    /** `handleDeleteCompany`: the company leaves the list only after the delete succeeds. */
    method DeleteCompany(id: Option<Json>, backendOk: bool)
      modifies this
      ensures savedCompanies == (if backendOk then WithoutCompany(old(savedCompanies), id) else old(savedCompanies))
      ensures importedIds == old(importedIds) && searchResults == old(searchResults)
      ensures savedCompaniesError == old(savedCompaniesError) && isLoadingSavedCompanies == old(isLoadingSavedCompanies)
      ensures isSearching == old(isSearching)
    {
      if backendOk {
        savedCompanies := WithoutCompany(savedCompanies, id);
      }
    }

    /** `handleUpdateCompany`: the merge is applied to the local list only; no request is made. */
    method UpdateCompany(id: Option<Json>, data: JsObject)
      modifies this
      ensures savedCompanies == UpdateCompanies(old(savedCompanies), id, data)
      ensures importedIds == old(importedIds) && searchResults == old(searchResults)
      ensures savedCompaniesError == old(savedCompaniesError) && isLoadingSavedCompanies == old(isLoadingSavedCompanies)
      ensures isSearching == old(isSearching)
    {
      savedCompanies := UpdateCompanies(savedCompanies, id, data);
    }
  }
}
