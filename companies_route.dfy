/**
 * The saved-companies endpoint (server/routes/companies.ts): pagination read from
 * the query string, the bookmark list fetched from the company-data provider,
 * one detail fetch per bookmark with a fallback, and the two record mappers.
 * The provider's answers are parameters. Records are plain objects.
 */
module CompaniesRoute {
  import opened Wrappers
  import opened Text
  import opened Json
  import Lists

  /** The maximal run of decimal digits at the start of `s`. */
  function LeadingDigits(s: string): (r: string)
    ensures |r| <= |s| && r == s[..|r|]
    ensures forall i :: 0 <= i < |r| ==> IsDigit(r[i])
    ensures |r| < |s| ==> !IsDigit(s[|r|])
  {
    if s != [] && IsDigit(s[0]) then [s[0]] + LeadingDigits(s[1..]) else []
  }

  /**
   * `parseInt(s)` in base ten: leading whitespace is skipped, one sign is read,
   * then the digits up to the first non-digit; no digit at all is NaN (`None`).
   */
  function ParseInt(s: string): Option<int> {
    var t := TrimStart(s);
    var negative := t != [] && t[0] == '-';
    var body := if t != [] && (t[0] == '-' || t[0] == '+') then t[1..] else t;
    var digits := LeadingDigits(body);
    if digits == [] then None
    else
      var v: int := DecimalValue(digits);
      Some(if negative then -v else v)
  }

  /** A text that starts with a digit is read from its first character. */
  lemma ParseIntUnsigned(m: string)
    requires m != [] && IsDigit(m[0])
    ensures ParseInt(m) == Some(DecimalValue(LeadingDigits(m)))
  {
    assert !IsWhitespace(m[0]) && m[0] != '-' && m[0] != '+';
    assert TrimStart(m) == m;
    assert LeadingDigits(m) != [];
  }

  /** A minus sign followed by digits is read as the negated digits. */
  lemma ParseIntMinus(t: string, digits: string, v: nat)
    requires LeadingDigits(t) == digits && digits != [] && DecimalValue(digits) == v
    ensures ParseInt("-" + t) == Some(-(v as int))
  {
    var m := "-" + t;
    assert m[0] == '-' && !IsWhitespace(m[0]);
    assert TrimStart(m) == m;
    assert m[1..] == t;
  }

  /** Reading back a rendered count followed by non-digit text gives the count. */
  lemma ParseIntRoundTrip(n: nat, suffix: string)
    requires suffix == [] || !IsDigit(suffix[0])
    ensures ParseInt(NatToString(n) + suffix) == Some(n)
  {
    var d := NatToString(n);
    assert (d + suffix)[0] == d[0];
    ParseIntUnsigned(d + suffix);
    AllDigitsLead(d, suffix);
    NatToStringRoundTrip(n);
  }

  /** With a minus sign in front, the negated count. */
  lemma ParseIntNegative(n: nat, suffix: string)
    requires suffix == [] || !IsDigit(suffix[0])
    ensures ParseInt("-" + NatToString(n) + suffix) == Some(-(n as int))
  {
    var d := NatToString(n);
    NatToStringRoundTrip(n);
    ParseIntSigned(d, suffix, n);
  }

  /** A minus sign, a run of digits worth `n`, then non-digit text. */
  lemma ParseIntSigned(d: string, suffix: string, n: nat)
    requires d != [] && forall i :: 0 <= i < |d| ==> IsDigit(d[i])
    requires DecimalValue(d) == n
    requires suffix == [] || !IsDigit(suffix[0])
    ensures ParseInt("-" + d + suffix) == Some(-(n as int))
  {
    var t := d + suffix;
    assert LeadingDigits(t) == d by { AllDigitsLead(d, suffix); }
    assert "-" + d + suffix == "-" + t by { ConcatAssoc("-", d, suffix); }
    ParseIntMinus(t, d, n);
  }

  lemma ConcatAssoc(a: string, b: string, c: string)
    ensures a + b + c == a + (b + c)
  {
  }

  lemma {:induction false} AllDigitsLead(d: string, suffix: string)
    requires forall i :: 0 <= i < |d| ==> IsDigit(d[i])
    requires suffix == [] || !IsDigit(suffix[0])
    ensures LeadingDigits(d + suffix) == d
  {
    if d != [] {
      AllDigitsLead(d[1..], suffix);
      assert (d + suffix)[1..] == d[1..] + suffix;
    } else {
      assert d + suffix == suffix;
    }
  }

  /** A query parameter: missing is `parseInt(undefined)`, which is NaN. */
  function ParseQuery(q: Option<string>): Option<int> {
    if q.Some? then ParseInt(q.value) else None
  }

  /** `Math.min(Math.max(parseInt(q) || 100, 1), 500)`: NaN and 0 are falsy. */
  function Limit(parsed: Option<int>): (r: int)
    ensures 1 <= r <= 500
    ensures parsed.None? || parsed.value == 0 ==> r == 100
    ensures parsed.Some? && 1 <= parsed.value <= 500 ==> r == parsed.value
    ensures parsed.Some? && parsed.value > 500 ==> r == 500
    ensures parsed.Some? && parsed.value < 0 ==> r == 1
  {
    var n := if parsed.None? || parsed.value == 0 then 100 else parsed.value;
    var atLeastOne := if n > 1 then n else 1;
    if atLeastOne < 500 then atLeastOne else 500
  }

  /** `Math.max(parseInt(q) || 1, 1)`. */
  function Page(parsed: Option<int>): (r: int)
    ensures r >= 1
    ensures parsed.Some? && parsed.value >= 1 ==> r == parsed.value
    ensures parsed.None? || parsed.value < 1 ==> r == 1
  {
    var n := if parsed.None? || parsed.value == 0 then 1 else parsed.value;
    if n > 1 then n else 1
  }

  /** The fifteen properties both mappers copy, and the provider field each comes from. */
  const CopiedFields: map<string, string> := map[
    "domain" := "domain", "industry" := "industry", "employeeCount" := "employee_count",
    "employeeCountRange" := "employee_count_range", "revenue" := "revenue",
    "revenueRange" := "revenue_range", "logoUrl" := "logo_url", "linkedinUrl" := "linkedin_url",
    "crunchbaseUrl" := "crunchbase_url", "foundedYear" := "founded_year", "hqAddress" := "hq_address",
    "countries" := "countries", "website" := "website", "phone" := "phone",
    "apolloProfileUrl" := "apollo_url"]

  function Copied(src: JsObject): (r: JsObject)
    ensures forall k :: Get(r, k) == if k in CopiedFields then Get(src, CopiedFields[k]) else None
  {
    map k | k in CopiedFields && CopiedFields[k] in src :: src[CopiedFields[k]]
  }

  lemma IdAndNameNotCopied()
    ensures "id" !in CopiedFields && "name" !in CopiedFields
  {
  }

  /** `mapOrganizationToCompany`: the id is `id || organization_id`, the name is `name`. */
  function MapOrganization(org: JsObject): (c: JsObject)
    ensures Get(c, "id") == OrJs(Get(org, "id"), Get(org, "organization_id"))
    ensures Get(c, "name") == Get(org, "name")
    ensures forall k :: k in CopiedFields ==> Get(c, k) == Get(org, CopiedFields[k])
    ensures forall k :: k !in CopiedFields && k != "id" && k != "name" ==> k !in c
  {
    IdAndNameNotCopied();
    Put(Put(Copied(org), "id", OrJs(Get(org, "id"), Get(org, "organization_id"))), "name", Get(org, "name"))
  }

  /** `mapBookmarkToCompany`: the precedence is reversed, `organization_id || id`, and the name is `organization_name || name`. */
  function MapBookmark(b: JsObject): (c: JsObject)
    ensures Get(c, "id") == OrJs(Get(b, "organization_id"), Get(b, "id"))
    ensures Get(c, "name") == OrJs(Get(b, "organization_name"), Get(b, "name"))
    ensures forall k :: k in CopiedFields ==> Get(c, k) == Get(b, CopiedFields[k])
    ensures forall k :: k !in CopiedFields && k != "id" && k != "name" ==> k !in c
  {
    IdAndNameNotCopied();
    Put(Put(Copied(b), "id", OrJs(Get(b, "organization_id"), Get(b, "id"))),
        "name", OrJs(Get(b, "organization_name"), Get(b, "name")))
  }

  /** The two mappers agree on everything but `id` and `name`. */
  lemma MappersAgreeOnDetails(o: JsObject, k: string)
    requires k != "id" && k != "name"
    ensures Get(MapOrganization(o), k) == Get(MapBookmark(o), k)
  {
  }

  /** A record carrying both ids gets a different id from each mapper. */
  lemma IdPrecedenceDiffers()
    ensures var o := map["id" := JStr("a"), "organization_id" := JStr("b")];
      MapOrganization(o)["id"] == JStr("a") && MapBookmark(o)["id"] == JStr("b")
  {
    var o := map["id" := JStr("a"), "organization_id" := JStr("b")];
    assert Get(MapOrganization(o), "id") == Some(JStr("a"));
    assert Get(MapBookmark(o), "id") == Some(JStr("b"));
  }

  /** The provider's answer to one organization detail request. */
  datatype DetailReply = DetailOk(data: Json) | DetailNotOk | DetailThrew

  /** `bookmark.organization_id || bookmark.id`. */
  function OrgIdOf(b: JsObject): Option<Json> {
    OrJs(Get(b, "organization_id"), Get(b, "id"))
  }

  predicate HasOrgId(b: Json) {
    var id := OrgIdOf(PropsOf(b));
    id.Some? && IsTruthy(id.value)
  }

  /**
   * One bookmark's entry: `null` without an id; otherwise the detail mapped
   * (from `organization` when the answer has one), or the bookmark itself mapped
   * when the request fails or throws. A `null` body throws too, on reading its
   * `organization`, and so falls back to the bookmark.
   */
  function CompanyOf(bookmark: Json, detail: Json -> DetailReply): (r: Option<JsObject>)
    ensures r.Some? <==> HasOrgId(bookmark)
  {
    var b := PropsOf(bookmark);
    var id := OrgIdOf(b);
    if !HasOrgId(bookmark) then None
    else match detail(id.value)
      case DetailOk(data) =>
        if data.JNull? then Some(MapBookmark(b))
        else
        var orgData := PropsOf(data);
        Some(MapOrganization(if FieldTruthy(orgData, "organization") then PropsOf(orgData["organization"]) else orgData))
      case _ => Some(MapBookmark(b))
  }

  /** `companiesDetails.filter(c => c !== null)`. */
  function Present<T>(xs: seq<Option<T>>): seq<T> {
    if xs == [] then [] else (if xs[0].Some? then [xs[0].value] else []) + Present(xs[1..])
  }

  /** `companies`: the non-null entries of the per-bookmark results, in bookmark order. */
  function Companies(bookmarks: seq<Json>, detail: Json -> DetailReply): seq<JsObject> {
    Present(seq(|bookmarks|, i requires 0 <= i < |bookmarks| => CompanyOf(bookmarks[i], detail)))
  }

  /** Bookmarks without ids are dropped and every other one gives exactly one company, in order. */
  lemma {:induction false} CompaniesSpec(bookmarks: seq<Json>, detail: Json -> DetailReply)
    ensures |Companies(bookmarks, detail)| == |Lists.Filter(bookmarks, HasOrgId)|
    ensures bookmarks != [] && HasOrgId(bookmarks[0]) ==>
      Companies(bookmarks, detail) == [CompanyOf(bookmarks[0], detail).value] + Companies(bookmarks[1..], detail)
    ensures bookmarks != [] && !HasOrgId(bookmarks[0]) ==>
      Companies(bookmarks, detail) == Companies(bookmarks[1..], detail)
  {
    if bookmarks != [] {
      var xs := seq(|bookmarks|, i requires 0 <= i < |bookmarks| => CompanyOf(bookmarks[i], detail));
      var rest := seq(|bookmarks| - 1, i requires 0 <= i < |bookmarks| - 1 => CompanyOf(bookmarks[1..][i], detail));
      assert xs[1..] == rest;
      assert xs[0] == CompanyOf(bookmarks[0], detail);
      assert Companies(bookmarks, detail) == (if xs[0].Some? then [xs[0].value] else []) + Companies(bookmarks[1..], detail);
      assert Lists.Filter(bookmarks, HasOrgId)
          == (if HasOrgId(bookmarks[0]) then [bookmarks[0]] else []) + Lists.Filter(bookmarks[1..], HasOrgId);
      CompaniesSpec(bookmarks[1..], detail);
    }
  }

  /**
   * A bookmark whose detail request fails, throws or answers `null` is reported
   * from the bookmark's own fields.
   */
  lemma FailedDetailFallsBack(bookmark: Json, detail: Json -> DetailReply)
    requires HasOrgId(bookmark)
    requires var reply := detail(OrgIdOf(PropsOf(bookmark)).value); !reply.DetailOk? || reply.data.JNull?
    ensures CompanyOf(bookmark, detail) == Some(MapBookmark(PropsOf(bookmark)))
  {
  }

  /**
   * A detail answer that is an object is mapped: its `organization` when that is
   * truthy, the answer itself otherwise, and never the bookmark.
   */
  lemma DetailAnswerMapped(bookmark: Json, detail: Json -> DetailReply, data: JsObject)
    requires HasOrgId(bookmark) && detail(OrgIdOf(PropsOf(bookmark)).value) == DetailOk(JObj(data))
    ensures FieldTruthy(data, "organization") ==>
      CompanyOf(bookmark, detail) == Some(MapOrganization(PropsOf(data["organization"])))
    ensures !FieldTruthy(data, "organization") ==> CompanyOf(bookmark, detail) == Some(MapOrganization(data))
  {
  }

  /** `pagination?.total_entries || companies.length`. */
  function Total(pagination: JsObject, count: nat): (r: Json)
    ensures FieldTruthy(pagination, "total_entries") ==> r == pagination["total_entries"]
    ensures !FieldTruthy(pagination, "total_entries") ==> r == JNum(count)
  {
    if FieldTruthy(pagination, "total_entries") then pagination["total_entries"] else JNum(count)
  }

  /** `pagination?.total_pages ? page < total_pages : false`, for a numeric page count. */
  function HasMore(pagination: JsObject, page: int): (r: bool)
    ensures !FieldTruthy(pagination, "total_pages") ==> !r
    ensures FieldTruthy(pagination, "total_pages") && pagination["total_pages"].JNum? ==>
      (r <==> page < pagination["total_pages"].n)
  {
    FieldTruthy(pagination, "total_pages") && pagination["total_pages"].JNum? && page < pagination["total_pages"].n
  }

  /** The provider's answer to the bookmark list request. */
  datatype BookmarksReply = BookmarksOk(data: JsObject) | BookmarksNotOk(status: int, text: string) | BookmarksThrew(message: string)

  datatype CompaniesResponse =
    | NoApiKey
    | BookmarksFailed(status: int, details: string)
    | Listed(companies: seq<JsObject>, total: Json, page: int, limit: int, hasMore: bool)
    | Failed(message: string)

  /**
   * The bookmark answer turned into the listing: a missing or falsy list is
   * empty, a list is mapped bookmark by bookmark, and anything else, or a
   * `null` entry, throws.
   */
  method ListBookmarks(data: JsObject, detail: Json -> DetailReply, page: int, limit: int) returns (response: CompaniesResponse)
    ensures response.Listed? ==> response.limit == limit && response.page == page
    ensures
      var bs := if "bookmarks" in data then data["bookmarks"] else JNull;
      var pagination := PropsOf(if "pagination" in data then data["pagination"] else JNull);
      if !IsTruthy(bs) then
        response == Listed([], Total(pagination, 0), page, limit, HasMore(pagination, page))
      else if bs.JArr? && JNull !in bs.items then
        var cs := Companies(bs.items, detail);
        response == Listed(cs, Total(pagination, |cs|), page, limit, HasMore(pagination, page))
      else response.Failed?
  {
    var bs := if "bookmarks" in data then data["bookmarks"] else JNull;
    var items: seq<Json>;
    if !IsTruthy(bs) {
      items := [];
    } else if bs.JArr? {
      items := bs.items;
    } else {
      return Failed("bookmarks.map is not a function");
    }
    if JNull in items {
      return Failed("Cannot read properties of null (reading 'organization_id')");
    }
    var companies := Companies(items, detail);
    var pagination := PropsOf(if "pagination" in data then data["pagination"] else JNull);
    response := Listed(companies, Total(pagination, |companies|), page, limit, HasMore(pagination, page));
  }

  /** The bookmark request's body: `{ limit, page, type: "organization" }`. */
  datatype BookmarksQuery = BookmarksQuery(limit: int, page: int)

  /**
   * `handleGetCompanies`: no key gives 500 before any request; the bookmark
   * request carries the clamped limit and page; its failure status is passed
   * through; a `bookmarks` value that is truthy but not an array makes `map`
   * throw, and so does a `null` bookmark, whose id is read before the per-
   * bookmark `try`; the handler reports either as 500.
   */
  method HandleGetCompanies(apiKey: bool, limitQuery: Option<string>, pageQuery: Option<string>,
                            reply: BookmarksReply, detail: Json -> DetailReply)
    returns (response: CompaniesResponse, query: Option<BookmarksQuery>)
    ensures !apiKey ==> response == NoApiKey && query.None?
    ensures apiKey ==> query == Some(BookmarksQuery(Limit(ParseQuery(limitQuery)), Page(ParseQuery(pageQuery))))
    ensures apiKey && reply.BookmarksNotOk? ==> response == BookmarksFailed(reply.status, reply.text)
    ensures apiKey && reply.BookmarksThrew? ==> response == Failed(reply.message)
    ensures response.Listed? ==>
      reply.BookmarksOk? && response.limit == query.value.limit && response.page == query.value.page
      && 1 <= response.limit <= 500 && response.page >= 1
    ensures apiKey && reply.BookmarksOk? ==>
      var data := reply.data;
      var bs := if "bookmarks" in data then data["bookmarks"] else JNull;
      var pagination := PropsOf(if "pagination" in data then data["pagination"] else JNull);
      if !IsTruthy(bs) then
        response == Listed([], Total(pagination, 0), query.value.page, query.value.limit, HasMore(pagination, query.value.page))
      else if bs.JArr? && JNull !in bs.items then
        var cs := Companies(bs.items, detail);
        response == Listed(cs, Total(pagination, |cs|), query.value.page, query.value.limit, HasMore(pagination, query.value.page))
      else response.Failed?
  {
    if !apiKey {
      return NoApiKey, None;
    }
    var limit := Limit(ParseQuery(limitQuery));
    var page := Page(ParseQuery(pageQuery));
    query := Some(BookmarksQuery(limit, page));
    match reply {
      case BookmarksNotOk(status, text) => return BookmarksFailed(status, text), query;
      case BookmarksThrew(message) => return Failed(message), query;
      case BookmarksOk(data) =>
        response := ListBookmarks(data, detail, page, limit);
    }
  }
}
