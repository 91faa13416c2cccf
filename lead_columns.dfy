/**
 * The lead fields that reach the `leads` table, and the two tables that name a
 * column for them: the browser's data layer (client/lib/supabase-db.ts) knows
 * eleven columns, the server's update route (server/routes/leads.ts) fifteen.
 * Column names are snake_case; lead properties are camelCase.
 */
module LeadColumns {
  import opened Wrappers
  import opened Json
  import CrmTypes

  datatype LeadField =
    | Name | JobTitle | Company | Email | PhoneNumbers | Actions | Links | Locations
    | CompanyEmployees | CompanyIndustries | CompanyKeywords
    | AssignedTo | Status | Note | NextReminderDate

  /** The property's name on a lead and in a request's `updates` object. */
  function CamelName(f: LeadField): string {
    match f
    case Name => "name"
    case JobTitle => "jobTitle"
    case Company => "company"
    case Email => "email"
    case PhoneNumbers => "phoneNumbers"
    case Actions => "actions"
    case Links => "links"
    case Locations => "locations"
    case CompanyEmployees => "companyEmployees"
    case CompanyIndustries => "companyIndustries"
    case CompanyKeywords => "companyKeywords"
    case AssignedTo => "assignedTo"
    case Status => "status"
    case Note => "note"
    case NextReminderDate => "nextReminderDate"
  }

  /** The columns the browser's data layer writes, and the field each holds. */
  const ClientColumns: map<string, LeadField> := map[
    "name" := Name, "job_title" := JobTitle, "company" := Company, "email" := Email,
    "phone_numbers" := PhoneNumbers, "actions" := Actions, "links" := Links,
    "locations" := Locations, "company_employees" := CompanyEmployees,
    "company_industries" := CompanyIndustries, "company_keywords" := CompanyKeywords]

  /** The columns the server's update route writes: the same eleven and four more. */
  const ServerColumns: map<string, LeadField> := map[
    "name" := Name, "job_title" := JobTitle, "company" := Company, "email" := Email,
    "phone_numbers" := PhoneNumbers, "actions" := Actions, "links" := Links,
    "locations" := Locations, "company_employees" := CompanyEmployees,
    "company_industries" := CompanyIndustries, "company_keywords" := CompanyKeywords,
    "assigned_to" := AssignedTo, "status" := Status, "note" := Note,
    "next_reminder_date" := NextReminderDate]

  /** The fields only the store and the pages use. */
  predicate StoreOnly(f: LeadField) {
    f == AssignedTo || f == Status || f == Note || f == NextReminderDate
  }

  /** The browser never names a column for the assignee, status, note or reminder date. */
  lemma ClientColumnsOmitStoreFields()
    ensures forall k :: k in ClientColumns ==> !StoreOnly(ClientColumns[k])
    ensures "assigned_to" !in ClientColumns && "status" !in ClientColumns
    ensures "note" !in ClientColumns && "next_reminder_date" !in ClientColumns
  {
  }

  /** The server's table extends the browser's with exactly the four store-only fields. */
  lemma ServerExtendsClient()
    ensures forall k :: k in ClientColumns ==> k in ServerColumns && ServerColumns[k] == ClientColumns[k]
    ensures forall k :: k in ServerColumns && k !in ClientColumns ==> StoreOnly(ServerColumns[k])
  {
  }

  /** The server's column for a field. */
  function ServerColumn(f: LeadField): string {
    match f
    case Name => "name"
    case JobTitle => "job_title"
    case Company => "company"
    case Email => "email"
    case PhoneNumbers => "phone_numbers"
    case Actions => "actions"
    case Links => "links"
    case Locations => "locations"
    case CompanyEmployees => "company_employees"
    case CompanyIndustries => "company_industries"
    case CompanyKeywords => "company_keywords"
    case AssignedTo => "assigned_to"
    case Status => "status"
    case Note => "note"
    case NextReminderDate => "next_reminder_date"
  }

  /** Every field has a server column, and it is the one the table names. */
  lemma EveryFieldHasServerColumn(f: LeadField)
    ensures ServerColumn(f) in ServerColumns && ServerColumns[ServerColumn(f)] == f
  {
  }

  /** Each field has one column: no two server columns hold the same field. */
  lemma ColumnsOneToOne(j: string, k: string)
    requires j in ServerColumns && k in ServerColumns && ServerColumns[j] == ServerColumns[k]
    ensures j == k
  {
  }

  /** `updates[f]` when it is not `undefined`, as the value written to the column. */
  function PatchValue(p: CrmTypes.LeadPatch, f: LeadField): Option<Json> {
    match f
    case Name => if p.name.Some? then Some(JStr(p.name.value)) else None
    case JobTitle => if p.jobTitle.Some? then Some(JStr(p.jobTitle.value)) else None
    case Company => if p.company.Some? then Some(JStr(p.company.value)) else None
    case Email => if p.email.Some? then Some(JStr(p.email.value)) else None
    case PhoneNumbers => if p.phoneNumbers.Some? then Some(StrArr(p.phoneNumbers.value)) else None
    case Actions => if p.actions.Some? then Some(StrArr(p.actions.value)) else None
    case Links => if p.links.Some? then Some(StrArr(p.links.value)) else None
    case Locations => if p.locations.Some? then Some(StrArr(p.locations.value)) else None
    case CompanyEmployees => if p.companyEmployees.Some? then Some(JStr(p.companyEmployees.value)) else None
    case CompanyIndustries => if p.companyIndustries.Some? then Some(StrArr(p.companyIndustries.value)) else None
    case CompanyKeywords => if p.companyKeywords.Some? then Some(StrArr(p.companyKeywords.value)) else None
    case AssignedTo => OptStr(p.assignedTo)
    case Status => OptStr(p.status)
    case Note => OptStr(p.note)
    case NextReminderDate => OptStr(p.nextReminderDate)
  }

  /** `PatchValue` for one update, as a function of the field. */
  function PatchValues(p: CrmTypes.LeadPatch): LeadField -> Option<Json> {
    f => PatchValue(p, f)
  }

  /** An optional entry that is either absent or explicitly `undefined` is not written. */
  function OptStr(v: Option<Option<string>>): (r: Option<Json>)
    ensures r.Some? <==> v.Some? && v.value.Some?
  {
    if v.Some? && v.value.Some? then Some(JStr(v.value.value)) else None
  }

  /** A Kanban drop's `{ status }` has no value for any column the browser writes. */
  lemma StatusPatchHasNoClientValue(s: string)
    ensures forall k :: k in ClientColumns ==> PatchValue(CrmTypes.StatusPatch(s), ClientColumns[k]).None?
    ensures PatchValue(CrmTypes.StatusPatch(s), Status) == Some(JStr(s))
  {
  }

  /**
   * `payload` holds, for the columns of `columns`, exactly the defined values:
   * a column is present iff `value` has one for its field, and holds it.
   */
  ghost predicate Written(payload: JsObject, columns: map<string, LeadField>, value: LeadField -> Option<Json>) {
    forall k :: (k in payload <==> k in columns && value(columns[k]).Some?)
             && (k in payload ==> payload[k] == value(columns[k]).value)
  }

  /** The field's position in the source's sequence of guarded assignments. */
  function Position(f: LeadField): (n: nat)
    ensures n < 15 && (StoreOnly(f) <==> n >= 11)
  {
    match f
    case Name => 0
    case JobTitle => 1
    case Company => 2
    case Email => 3
    case PhoneNumbers => 4
    case Actions => 5
    case Links => 6
    case Locations => 7
    case CompanyEmployees => 8
    case CompanyIndustries => 9
    case CompanyKeywords => 10
    case AssignedTo => 11
    case Status => 12
    case Note => 13
    case NextReminderDate => 14
  }

  /** `Written`, so far, for the columns of the first `n` fields. */
  ghost predicate WrittenFor(payload: JsObject, columns: map<string, LeadField>, n: nat,
                             value: LeadField -> Option<Json>) {
    forall k :: (k in payload <==> k in columns && Position(columns[k]) < n && value(columns[k]).Some?)
             && (k in payload ==> payload[k] == value(columns[k]).value)
  }

  ghost predicate Injective(columns: map<string, LeadField>) {
    forall j, k :: j in columns && k in columns && columns[j] == columns[k] ==> j == k
  }

  /** Each table names a field's column as `ServerColumn` does. */
  lemma ColumnsNamedByField()
    ensures forall k :: k in ServerColumns ==> ServerColumn(ServerColumns[k]) == k
    ensures forall k :: k in ClientColumns ==> ServerColumn(ClientColumns[k]) == k
  {
  }

  lemma ColumnTablesInjective()
    ensures Injective(ClientColumns) && Injective(ServerColumns)
  {
    ColumnsNamedByField();
  }

  /** The table names `ServerColumn(f)` as the column of `f`. */
  ghost predicate HasColumn(columns: map<string, LeadField>, f: LeadField) {
    ServerColumn(f) in columns && columns[ServerColumn(f)] == f
  }

  lemma FieldsHaveColumns()
    ensures forall f :: !StoreOnly(f) ==> HasColumn(ClientColumns, f)
    ensures forall f :: HasColumn(ServerColumns, f)
  {
    forall f ensures HasColumn(ServerColumns, f) {
      EveryFieldHasServerColumn(f);
    }
  }

  /** One `if (updates.f !== undefined) updateData.column = updates.f;`. */
  method SetColumn(payload: JsObject, ghost columns: map<string, LeadField>, ghost n: nat,
                   ghost value: LeadField -> Option<Json>, column: string, f: LeadField, v: Option<Json>)
    returns (next: JsObject)
    requires Injective(columns) && HasColumn(columns, f) && column == ServerColumn(f)
    requires Position(f) == n && v == value(f)
    requires WrittenFor(payload, columns, n, value)
    ensures WrittenFor(next, columns, n + 1, value)
  {
    forall k | k in columns && Position(columns[k]) == n
      ensures k == column
    {
      PositionInjective(columns[k], f);
    }
    next := payload;
    if v.Some? {
      next := payload[column := v.value];
    }
  }

  /** Each field has its own place in the write order. */
  lemma PositionInjective(a: LeadField, b: LeadField)
    requires Position(a) == Position(b)
    ensures a == b
  {
  }

  /** The `name`, `job_title`, `company` and `email` steps. */
  method WriteProfileColumns(payload: JsObject, ghost columns: map<string, LeadField>, value: LeadField -> Option<Json>)
    returns (next: JsObject)
    requires Injective(columns) && HasColumn(columns, Name) && HasColumn(columns, JobTitle) && HasColumn(columns, Company) && HasColumn(columns, Email)
    requires WrittenFor(payload, columns, 0, value)
    ensures WrittenFor(next, columns, 4, value)
  {
    next := SetColumn(payload, columns, 0, value, "name", Name, value(Name));
    next := SetColumn(next, columns, 1, value, "job_title", JobTitle, value(JobTitle));
    next := SetColumn(next, columns, 2, value, "company", Company, value(Company));
    next := SetColumn(next, columns, 3, value, "email", Email, value(Email));
  }

  /** The `phone_numbers`, `actions`, `links` and `locations` steps. */
  method WriteListColumns(payload: JsObject, ghost columns: map<string, LeadField>, value: LeadField -> Option<Json>)
    returns (next: JsObject)
    requires Injective(columns) && HasColumn(columns, PhoneNumbers) && HasColumn(columns, Actions) && HasColumn(columns, Links) && HasColumn(columns, Locations)
    requires WrittenFor(payload, columns, 4, value)
    ensures WrittenFor(next, columns, 8, value)
  {
    next := SetColumn(payload, columns, 4, value, "phone_numbers", PhoneNumbers, value(PhoneNumbers));
    next := SetColumn(next, columns, 5, value, "actions", Actions, value(Actions));
    next := SetColumn(next, columns, 6, value, "links", Links, value(Links));
    next := SetColumn(next, columns, 7, value, "locations", Locations, value(Locations));
  }

  /** The `company_employees`, `company_industries` and `company_keywords` steps. */
  method WriteCompanyColumns(payload: JsObject, ghost columns: map<string, LeadField>, value: LeadField -> Option<Json>)
    returns (next: JsObject)
    requires Injective(columns) && HasColumn(columns, CompanyEmployees) && HasColumn(columns, CompanyIndustries) && HasColumn(columns, CompanyKeywords)
    requires WrittenFor(payload, columns, 8, value)
    ensures WrittenFor(next, columns, 11, value)
  {
    next := SetColumn(payload, columns, 8, value, "company_employees", CompanyEmployees, value(CompanyEmployees));
    next := SetColumn(next, columns, 9, value, "company_industries", CompanyIndustries, value(CompanyIndustries));
    next := SetColumn(next, columns, 10, value, "company_keywords", CompanyKeywords, value(CompanyKeywords));
  }

  /** The `assigned_to`, `status`, `note` and `next_reminder_date` steps. */
  method WriteStoreColumns(payload: JsObject, ghost columns: map<string, LeadField>, value: LeadField -> Option<Json>)
    returns (next: JsObject)
    requires Injective(columns) && HasColumn(columns, AssignedTo) && HasColumn(columns, Status) && HasColumn(columns, Note) && HasColumn(columns, NextReminderDate)
    requires WrittenFor(payload, columns, 11, value)
    ensures WrittenFor(next, columns, 15, value)
  {
    next := SetColumn(payload, columns, 11, value, "assigned_to", AssignedTo, value(AssignedTo));
    next := SetColumn(next, columns, 12, value, "status", Status, value(Status));
    next := SetColumn(next, columns, 13, value, "note", Note, value(Note));
    next := SetColumn(next, columns, 14, value, "next_reminder_date", NextReminderDate, value(NextReminderDate));
  }

  /** Once every column's field is done, the payload is the whole `Written`. */
  lemma WrittenForAll(payload: JsObject, columns: map<string, LeadField>, n: nat,
                      value: LeadField -> Option<Json>)
    requires WrittenFor(payload, columns, n, value)
    requires forall k :: k in columns ==> Position(columns[k]) < n
    ensures Written(payload, columns, value)
  {
  }

  /** A table shaped like the browser's: one column for each of the eleven stored fields, and no other. */
  ghost predicate ClientLayout(columns: map<string, LeadField>) {
    Injective(columns)
    && (forall f :: !StoreOnly(f) ==> HasColumn(columns, f))
    && (forall k :: k in columns ==> !StoreOnly(columns[k]))
  }

  /** What a browser-shaped table provides to the eleven steps. */
  lemma ClientLayoutColumns(columns: map<string, LeadField>)
    requires ClientLayout(columns)
    ensures HasColumn(columns, Name) && HasColumn(columns, JobTitle) && HasColumn(columns, Company) && HasColumn(columns, Email)
    ensures HasColumn(columns, PhoneNumbers) && HasColumn(columns, Actions) && HasColumn(columns, Links) && HasColumn(columns, Locations)
    ensures HasColumn(columns, CompanyEmployees) && HasColumn(columns, CompanyIndustries) && HasColumn(columns, CompanyKeywords)
    ensures forall k :: k in columns ==> Position(columns[k]) < 11
  {
    ClientHas(columns, Name);
    ClientHas(columns, JobTitle);
    ClientHas(columns, Company);
    ClientHas(columns, Email);
    ClientHas(columns, PhoneNumbers);
    ClientHas(columns, Actions);
    ClientHas(columns, Links);
    ClientHas(columns, Locations);
    ClientHas(columns, CompanyEmployees);
    ClientHas(columns, CompanyIndustries);
    ClientHas(columns, CompanyKeywords);
    ClientPositions(columns);
  }

  lemma ClientHas(columns: map<string, LeadField>, f: LeadField)
    requires ClientLayout(columns) && !StoreOnly(f)
    ensures HasColumn(columns, f)
  {
  }

  lemma ClientPositions(columns: map<string, LeadField>)
    requires forall k :: k in columns ==> !StoreOnly(columns[k])
    ensures forall k :: k in columns ==> Position(columns[k]) < 11
  {
  }

  /** A table shaped like the server's: one column for each of the fifteen fields. */
  ghost predicate ServerLayout(columns: map<string, LeadField>) {
    Injective(columns) && forall f :: HasColumn(columns, f)
  }

  lemma ColumnTablesLayout()
    ensures ClientLayout(ClientColumns) && ServerLayout(ServerColumns)
  {
    ColumnTablesInjective();
    FieldsHaveColumns();
    ClientColumnsOmitStoreFields();
  }

  /** The eleven guarded assignments of the browser's `updateLead`, in source order. */
  method WriteClientColumns(columns: map<string, LeadField>, value: LeadField -> Option<Json>)
    returns (payload: JsObject)
    requires ClientLayout(columns)
    ensures Written(payload, columns, value)
  {
    ClientLayoutColumns(columns);
    payload := WriteProfileColumns(map[], columns, value);
    payload := WriteListColumns(payload, columns, value);
    payload := WriteCompanyColumns(payload, columns, value);
    WrittenForAll(payload, columns, 11, value);
  }

  /** The fifteen guarded assignments of the server's update route, in source order. */
  method WriteServerColumns(columns: map<string, LeadField>, value: LeadField -> Option<Json>)
    returns (payload: JsObject)
    requires ServerLayout(columns)
    ensures Written(payload, columns, value)
  {
    payload := WriteProfileColumns(map[], columns, value);
    payload := WriteListColumns(payload, columns, value);
    payload := WriteCompanyColumns(payload, columns, value);
    payload := WriteStoreColumns(payload, columns, value);
    WrittenForAll(payload, columns, 15, value);
  }
}
