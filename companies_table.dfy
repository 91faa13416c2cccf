/**
 * The saved-companies table (client/components/CompaniesTable.tsx): how each
 * company row is shown, and the inline edit and delete of a row. The update and
 * delete callbacks are optional props; whether one is given, and whether it
 * succeeds, are parameters.
 */
module CompaniesTable {
  import opened Wrappers
  import opened Text
  import opened Json
  import CompaniesPage

  /** The company's `id` when it is a string, as the row type declares it. */
  function CompanyId(c: JsObject): (r: Option<string>)
    ensures r.Some? <==> "id" in c && c["id"].JStr?
  {
    StrField(c, "id")
  }

  /** `c[k] || fallback` for a string field; a field that is not a string is read as missing. */
  function FieldOr(c: JsObject, k: string, fallback: string): (r: string)
    ensures Truthy(StrField(c, k)) ==> r == c[k].s
    ensures !Truthy(StrField(c, k)) ==> r == fallback
  {
    Or(StrField(c, k), Some(fallback)).value
  }

  /** The link target: a website that already starts with "http" is kept, any other gets "https://" in front. */
  function Href(website: string): (r: string)
    ensures StartsWith(website, "http") ==> r == website
    ensures !StartsWith(website, "http") ==> r == "https://" + website
    ensures StartsWith(r, "http")
  {
    if StartsWith(website, "http") then website
    else
      StartsWithAppend("https://", website);
      StartsWithAppend("http", "s://");
      StartsWithLonger("https://" + website, "https://", "http");
      "https://" + website
  }

  /** Normalising a link twice changes nothing more. */
  lemma HrefIdempotent(website: string)
    ensures Href(Href(website)) == Href(website)
  {
  }

  /** The target always ends with the website as stored: nothing of it is lost. */
  lemma HrefKeepsWebsite(website: string)
    ensures var h := Href(website); |h| >= |website| && h[|h| - |website|..] == website
  {
    var h := Href(website);
    if !StartsWith(website, "http") {
      assert h[|h| - |website|..] == h[8..];
    }
  }

  /** The website cell: a link when there is a website, "N/A" otherwise. */
  datatype WebsiteCell = Link(href: string, text: string) | NoWebsite

  function WebsiteCellOf(c: JsObject): (r: WebsiteCell)
    ensures r.NoWebsite? <==> !Truthy(StrField(c, "website"))
    ensures r.Link? ==> r.href == Href(c["website"].s) && StartsWith(r.href, "http")
    ensures r.Link? && Truthy(StrField(c, "domain")) ==> r.text == c["domain"].s
    ensures r.Link? && !Truthy(StrField(c, "domain")) ==> r.text == c["website"].s
  {
    var website := StrField(c, "website");
    if Truthy(website) then Link(Href(website.value), Or(StrField(c, "domain"), website).value)
    else NoWebsite
  }

  /** One table row: the inputs of the row being edited, or the company as displayed. */
  datatype RowView =
    | Editing(name: string, employees: string, website: string, industry: string, location: string)
    | Showing(employees: string, link: WebsiteCell, industry: string, location: string, deleteDisabled: bool)

  /** What the table shows. */
  datatype TableView = LoadingCompanies | NoCompanies | Rows(rows: seq<RowView>)

  /**
   * The `null` that `editingId` and `deletingId` hold when no row is being edited or
   * deleted. The markers otherwise hold a company's raw `id`: `undefined` (`None`) for a
   * company without one, since nothing checks the declared `id: string` of a server answer.
   */
  const Unset: Option<Json> := Some(JNull)

  /** `editingId === company.id`, with `===` on the raw values: `undefined === undefined`, `null === null`. */
  predicate IsEdited(c: JsObject, editingId: Option<Json>) {
    Get(c, "id") == editingId
  }

  function Row(c: JsObject, editingId: Option<Json>, editData: JsObject, deletingId: Option<Json>): (r: RowView)
    ensures r.Editing? <==> IsEdited(c, editingId)
    ensures r.Editing? ==>
      r == Editing(FieldOr(editData, "name", ""), FieldOr(editData, "employeeCountRange", ""),
                   FieldOr(editData, "website", ""), FieldOr(editData, "industry", ""), FieldOr(editData, "hqAddress", ""))
    ensures r.Showing? ==>
      r.employees == FieldOr(c, "employeeCountRange", "N/A") && r.link == WebsiteCellOf(c)
      && r.industry == FieldOr(c, "industry", "N/A") && r.location == FieldOr(c, "hqAddress", "N/A")
      && (r.deleteDisabled <==> Get(c, "id") == deletingId)
  {
    if IsEdited(c, editingId) then
      Editing(FieldOr(editData, "name", ""), FieldOr(editData, "employeeCountRange", ""),
              FieldOr(editData, "website", ""), FieldOr(editData, "industry", ""), FieldOr(editData, "hqAddress", ""))
    else
      Showing(FieldOr(c, "employeeCountRange", "N/A"), WebsiteCellOf(c), FieldOr(c, "industry", "N/A"),
              FieldOr(c, "hqAddress", "N/A"), Get(c, "id") == deletingId)
  }

  /** The loading state wins, then the empty state, then one row per company in order. */
  function Render(companies: seq<JsObject>, isLoading: bool, editingId: Option<Json>, editData: JsObject, deletingId: Option<Json>): (v: TableView)
    ensures isLoading <==> v.LoadingCompanies?
    ensures v.NoCompanies? <==> !isLoading && companies == []
    ensures v.Rows? ==> |v.rows| == |companies| && forall i :: 0 <= i < |companies| ==> v.rows[i] == Row(companies[i], editingId, editData, deletingId)
  {
    if isLoading then LoadingCompanies
    else if companies == [] then NoCompanies
    else Rows(seq(|companies|, i requires 0 <= i < |companies| => Row(companies[i], editingId, editData, deletingId)))
  }

  /**
   * With no edit open every row is displayed, not as inputs, except a company whose `id`
   * is `null`: `null === company.id` holds for it, so its row opens before any edit starts.
   */
  lemma NothingEditedShowsAll(companies: seq<JsObject>, editData: JsObject, deletingId: Option<Json>)
    requires companies != []
    ensures var v := Render(companies, false, Unset, editData, deletingId);
      v.Rows? && forall i :: 0 <= i < |v.rows| ==> (v.rows[i].Showing? <==> Get(companies[i], "id") != Some(JNull))
  {
  }

  /** With distinct ids (at most one company without one), at most one row is open for editing. */
  lemma AtMostOneEditedRow(companies: seq<JsObject>, editingId: Option<Json>, editData: JsObject, deletingId: Option<Json>, i: nat, j: nat)
    requires forall a, b :: 0 <= a < b < |companies| ==> Get(companies[a], "id") != Get(companies[b], "id")
    requires i < |companies| && j < |companies|
    requires Row(companies[i], editingId, editData, deletingId).Editing? && Row(companies[j], editingId, editData, deletingId).Editing?
    ensures i == j
  {
  }

  /** An edit started on a company without an id opens every row whose company has no id. */
  lemma IdLessEditOpensEveryIdLessRow(companies: seq<JsObject>, k: nat, editData: JsObject, deletingId: Option<Json>)
    requires k < |companies| && "id" !in companies[k]
    ensures var v := Render(companies, false, Get(companies[k], "id"), editData, deletingId);
      v.Rows? && forall i :: 0 <= i < |companies| ==> (v.rows[i].Editing? <==> "id" !in companies[i])
  {
  }

  /**
   * An edit started on a company and changed in one field, once saved through
   * the companies page, replaces that company by the edited copy, whatever its id.
   */
  lemma SavedEditReplacesCompany(companies: seq<JsObject>, i: nat, field: string, value: string)
    requires i < |companies|
    ensures var edited := Put(companies[i], field, Some(JStr(value)));
      CompaniesPage.UpdateCompanies(companies, Get(companies[i], "id"), edited)[i] == edited
  {
    var c := companies[i];
    var edited := Put(c, field, Some(JStr(value)));
    var r := CompaniesPage.UpdateCompanies(companies, Get(c, "id"), edited);
    assert CompaniesPage.HasId(c, Get(c, "id"));
    assert r[i].Keys == edited.Keys;
  }

  datatype SaveOutcome = NoUpdateHandler | Saved | SaveFailed
  datatype DeleteOutcome = NoDeleteHandler | Deleted | DeleteFailed

  /** The update the table asks for: `onUpdateCompany(company.id, editData)`. */
  datatype UpdateCall = UpdateCall(id: Option<Json>, data: JsObject)

  class Table {
    var editingId: Option<Json>
    var editData: JsObject
    var deletingId: Option<Json>
    var saving: bool

    /** Between handlers no spinner is left running. */
    predicate Idle()
      reads this
    {
      deletingId == Unset && !saving
    }

    constructor ()
      ensures editingId == Unset && editData == map[] && Idle()
    {
      editingId, editData, deletingId, saving := Unset, map[], Unset, false;
    }

    /**
     * `handleEditStart`: the row opens on a copy of the whole company. Every row whose
     * company has the same raw id opens with it, so all companies without an id open together.
     */
    method EditStart(company: JsObject)
      modifies this
      ensures editingId == Get(company, "id") && editData == company
      ensures forall c :: IsEdited(c, editingId) <==> Get(c, "id") == Get(company, "id")
      ensures deletingId == old(deletingId) && saving == old(saving)
    {
      editingId, editData := Get(company, "id"), company;
    }

    /** `handleEditCancel`. */
    method EditCancel()
      modifies this
      ensures editingId == Unset && editData == map[]
      ensures deletingId == old(deletingId) && saving == old(saving)
    {
      editingId, editData := Unset, map[];
    }

    /** `handleEditChange`: one field set to the typed text, the others kept. */
    method EditChange(field: string, value: string)
      modifies this
      ensures editData == Put(old(editData), field, Some(JStr(value)))
      ensures editingId == old(editingId) && deletingId == old(deletingId) && saving == old(saving)
    {
      editData := editData[field := JStr(value)];
    }

    /**
     * `handleSave`. Without an update callback the edit closes and the edited
     * data is kept. Otherwise the edited data is sent for the company; success
     * closes the edit and clears the data, failure keeps both. Saving ends
     * whatever the outcome.
     */
    method Save(company: JsObject, hasUpdateHandler: bool, updateOk: bool) returns (outcome: SaveOutcome, sent: Option<UpdateCall>)
      modifies this
      ensures !hasUpdateHandler ==>
        outcome == NoUpdateHandler && sent.None? && editingId == Unset && editData == old(editData) && saving == old(saving)
      ensures hasUpdateHandler ==> sent == Some(UpdateCall(Get(company, "id"), old(editData))) && !saving
      ensures hasUpdateHandler && updateOk ==> outcome == Saved && editingId == Unset && editData == map[]
      ensures hasUpdateHandler && !updateOk ==> outcome == SaveFailed && editingId == old(editingId) && editData == old(editData)
      ensures deletingId == old(deletingId)
      ensures old(Idle()) ==> Idle()
    {
      if !hasUpdateHandler {
        editingId := Unset;
        return NoUpdateHandler, None;
      }
      saving := true;
      sent := Some(UpdateCall(Get(company, "id"), editData));
      if updateOk {
        editingId, editData := Unset, map[];
        outcome := Saved;
      } else {
        outcome := SaveFailed;
      }
      saving := false;
    }

    /** `handleDelete`: without a delete callback nothing happens; otherwise the row's spinner runs until the callback settles. */
    method Delete(id: Option<Json>, hasDeleteHandler: bool, deleteOk: bool) returns (outcome: DeleteOutcome, requested: bool)
      modifies this
      ensures requested == hasDeleteHandler
      ensures !hasDeleteHandler ==> outcome == NoDeleteHandler && deletingId == old(deletingId)
      ensures hasDeleteHandler ==> outcome == (if deleteOk then Deleted else DeleteFailed) && deletingId == Unset
      ensures editingId == old(editingId) && editData == old(editData) && saving == old(saving)
      ensures old(Idle()) ==> Idle()
    {
      if !hasDeleteHandler {
        return NoDeleteHandler, false;
      }
      requested := true;
      deletingId := id;
      outcome := if deleteOk then Deleted else DeleteFailed;
      deletingId := Unset;
    }
  }
}
