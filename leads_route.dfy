/**
 * The server's lead update endpoint (server/routes/leads.ts). Whether the
 * service-role client exists is the parameter `configured`; the database's
 * answer to the update is `db`: it returns an error message or none, or throws.
 */
module LeadsRoute {
  import opened Wrappers
  import opened Json
  import opened LeadColumns

  /** The outcomes of `handleUpdateLead`, each with its HTTP status. */
  datatype Outcome =
    | NotConfigured
    | MissingFields
    | UpdateFailed(details: string)
    | Updated
    | Crashed(message: string)

  function HttpStatus(o: Outcome): nat {
    match o
    case NotConfigured => 500
    case MissingFields => 400
    case UpdateFailed(_) => 400
    case Updated => 200
    case Crashed(_) => 500
  }

  /** `updates.f` read from the request body: defined exactly when the key is present. */
  function RequestValues(updates: JsObject): LeadField -> Option<Json> {
    f => if CamelName(f) in updates then Some(updates[CamelName(f)]) else None
  }

  /** The update the endpoint sends: the lead id and the column values. */
  datatype Sent = Sent(leadId: Json, columns: JsObject)

  /**
   * `handleUpdateLead`: no client gives 500 before anything else; a falsy
   * `leadId` or `updates` gives 400 without a database call; otherwise the
   * fifteen guarded assignments build the update, and the database's answer
   * decides between 400 with its message, success, and 500 when it throws.
   */
  method HandleUpdateLead(configured: bool, body: JsObject, db: Reply<Option<string>>)
    returns (outcome: Outcome, sent: Option<Sent>)
    ensures !configured ==> outcome == NotConfigured && sent.None?
    ensures configured && !(FieldTruthy(body, "leadId") && FieldTruthy(body, "updates")) ==>
      outcome == MissingFields && sent.None?
    ensures configured && FieldTruthy(body, "leadId") && FieldTruthy(body, "updates") ==>
      sent.Some? && sent.value.leadId == body["leadId"]
      && Written(sent.value.columns, ServerColumns, RequestValues(PropsOf(body["updates"])))
      && outcome == match db
                    case Threw(m) => Crashed(m)
                    case Returned(Some(e)) => UpdateFailed(e)
                    case Returned(None) => Updated
  {
    if !configured {
      return NotConfigured, None;
    }
    if !FieldTruthy(body, "leadId") || !FieldTruthy(body, "updates") {
      return MissingFields, None;
    }
    ColumnTablesLayout();
    var payload := WriteServerColumns(ServerColumns, RequestValues(PropsOf(body["updates"])));
    sent := Some(Sent(body["leadId"], payload));
    match db {
      case Threw(m) => outcome := Crashed(m);
      case Returned(error) =>
        outcome := if error.Some? then UpdateFailed(error.value) else Updated;
    }
  }

  /** Only the fifteen named columns are ever written: never `id` or `created_at`, whatever the request carries. */
  lemma OnlyNamedColumnsWritten(updates: JsObject, payload: JsObject)
    requires Written(payload, ServerColumns, RequestValues(updates))
    ensures forall k :: k in payload ==> k in ServerColumns
    ensures "id" !in payload && "created_at" !in payload && "createdAt" !in payload
  {
    assert "id" !in ServerColumns && "created_at" !in ServerColumns && "createdAt" !in ServerColumns;
  }

  /**
   * A column is written exactly when its camelCase property is present in
   * `updates`, with the value sent; this covers the assignee, status, note and
   * reminder date, which the browser's data layer drops.
   */
  lemma ColumnIffPropertyPresent(updates: JsObject, payload: JsObject, f: LeadField)
    requires Written(payload, ServerColumns, RequestValues(updates))
    ensures ServerColumn(f) in payload <==> CamelName(f) in updates
    ensures ServerColumn(f) in payload ==> payload[ServerColumn(f)] == updates[CamelName(f)]
  {
    EveryFieldHasServerColumn(f);
  }

  /** A request whose `updates` names only unknown properties writes nothing. */
  lemma UnknownPropertiesWriteNothing(updates: JsObject, payload: JsObject)
    requires forall f :: CamelName(f) !in updates
    requires Written(payload, ServerColumns, RequestValues(updates))
    ensures payload == map[]
  {
  }
}
