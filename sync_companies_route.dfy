/**
 * The company sync endpoint (server/routes/sync-companies.ts): the request's
 * companies become rows of the `saved_companies` table, upserted on
 * `apollo_id`. The database's answer is a parameter: the returned rows (possibly
 * null), or the error the client library reports as `Threw`.
 */
module SyncCompaniesRoute {
  import opened Wrappers
  import opened Json

  datatype SyncOutcome =
    | InvalidBody
    | SyncFailed(details: string)
    | Synced(count: nat)
    | Crashed(message: string)

  function HttpStatus(o: SyncOutcome): nat {
    match o
    case InvalidBody => 400
    case SyncFailed(_) => 500
    case Synced(_) => 200
    case Crashed(_) => 500
  }

  /** `{ apollo_id: apolloId || id, company_name: name, sync_status: "synced" }`; an `undefined` value is not sent. */
  function SyncRow(company: JsObject): (row: JsObject)
    ensures Get(row, "apollo_id") == OrJs(Get(company, "apolloId"), Get(company, "id"))
    ensures Get(row, "company_name") == Get(company, "name")
    ensures Get(row, "sync_status") == Some(JStr("synced"))
    ensures forall k :: k in row ==> k == "apollo_id" || k == "company_name" || k == "sync_status"
  {
    Put(Put(map["sync_status" := JStr("synced")], "apollo_id", OrJs(Get(company, "apolloId"), Get(company, "id"))),
        "company_name", Get(company, "name"))
  }

  /** `formattedCompanies`: one row per company, in the same order. */
  function SyncRows(companies: seq<Json>): (rows: seq<JsObject>)
    ensures |rows| == |companies|
    ensures forall i :: 0 <= i < |rows| ==> rows[i] == SyncRow(PropsOf(companies[i]))
  {
    seq(|companies|, i requires 0 <= i < |companies| => SyncRow(PropsOf(companies[i])))
  }

  /** `data?.length || 0`. */
  function SyncedCount(data: Option<seq<Json>>): (n: nat)
    ensures data.Some? ==> n == |data.value|
    ensures data.None? ==> n == 0
  {
    if data.Some? then |data.value| else 0
  }

  /** The handler's answer and the rows it upserts, if it reaches the database. */
  datatype Response = Response(outcome: SyncOutcome, upserted: Option<seq<JsObject>>)

  /** A body's `companies` when it is a non-empty value and an array. */
  predicate ValidBody(body: JsObject) {
    FieldTruthy(body, "companies") && body["companies"].JArr?
  }

  /**
   * `handleSyncCompanies`: an invalid body gives 400 without a database call;
   * a null element makes the row map throw, reported as 500; otherwise the rows
   * are upserted and the database's answer decides between 500 and 200.
   */
  function HandleSyncCompanies(body: JsObject, db: Reply<Option<seq<Json>>>): (r: Response)
    ensures !ValidBody(body) ==> r == Response(InvalidBody, None)
    ensures ValidBody(body) && JNull in body["companies"].items ==> r.outcome.Crashed? && r.upserted.None?
    ensures ValidBody(body) && JNull !in body["companies"].items ==>
      r.upserted == Some(SyncRows(body["companies"].items))
      && r.outcome == match db
                      case Threw(m) => SyncFailed(m)
                      case Returned(data) => Synced(SyncedCount(data))
  {
    if !ValidBody(body) then Response(InvalidBody, None)
    else
      var companies := body["companies"].items;
      if JNull in companies then Response(Crashed("Cannot read properties of null (reading 'apolloId')"), None)
      else
        var rows := SyncRows(companies);
        match db
        case Threw(m) => Response(SyncFailed(m), Some(rows))
        case Returned(data) => Response(Synced(SyncedCount(data)), Some(rows))
  }

  /** Every row is marked synced, and its key prefers `apolloId` over `id`. */
  lemma RowKeys(company: JsObject)
    ensures SyncRow(company)["sync_status"] == JStr("synced")
    ensures FieldTruthy(company, "apolloId") ==> SyncRow(company)["apollo_id"] == company["apolloId"]
    ensures !FieldTruthy(company, "apolloId") && "id" in company ==> SyncRow(company)["apollo_id"] == company["id"]
    ensures !FieldTruthy(company, "apolloId") && "id" !in company ==> "apollo_id" !in SyncRow(company)
  {
    assert Get(SyncRow(company), "sync_status") == Some(JStr("synced"));
  }

  /** A successful sync reports as many companies as the database returned, whatever was sent. */
  lemma ReportedCountIsReturnedRows(body: JsObject, rows: seq<Json>)
    requires ValidBody(body) && JNull !in body["companies"].items
    ensures HandleSyncCompanies(body, Returned(Some(rows))).outcome == Synced(|rows|)
    ensures HandleSyncCompanies(body, Returned(None)).outcome == Synced(0)
  {
  }

  /** An empty array is truthy in JavaScript, so it passes the check and syncs nothing. */
  lemma EmptyArraySyncsNothing(db: Reply<Option<seq<Json>>>)
    ensures HandleSyncCompanies(map["companies" := JArr([])], db).upserted == Some([])
  {
    assert ValidBody(map["companies" := JArr([])]);
  }
}
