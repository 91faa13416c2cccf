/** JSON values and plain JavaScript objects, as request bodies and index-signature records carry them. */
module Json {
  import opened Wrappers

  datatype Json =
    | JNull
    | JBool(b: bool)
    | JNum(n: int)
    | JStr(s: string)
    | JArr(items: seq<Json>)
    | JObj(fields: map<string, Json>)

  /** An object: a missing key is `undefined`; a present key holds a defined value. */
  type JsObject = map<string, Json>

  /** `{ ...a, ...b }`: keys of `b` override those of `a`. */
  function Spread(a: JsObject, b: JsObject): (r: JsObject)
    ensures r.Keys == a.Keys + b.Keys
    ensures forall k :: k in b ==> r[k] == b[k]
    ensures forall k :: k in a && k !in b ==> r[k] == a[k]
  {
    a + b
  }

  /** `o[k]` read as a string; anything else (missing or another type) is `None`. */
  function StrField(o: JsObject, k: string): (r: Option<string>)
    ensures r.Some? <==> k in o && o[k].JStr?
  {
    if k in o && o[k].JStr? then Some(o[k].s) else None
  }

  /** JavaScript truthiness of a defined value. */
  predicate IsTruthy(j: Json) {
    match j
    case JNull => false
    case JBool(b) => b
    case JNum(n) => n != 0
    case JStr(s) => s != ""
    case _ => true
  }

  /** `!!o[k]`: a missing key is `undefined`, which is falsy. */
  predicate FieldTruthy(o: JsObject, k: string) {
    k in o && IsTruthy(o[k])
  }

  /** The properties of a value read as an object; a primitive or an array has none of the keys read here. */
  function PropsOf(j: Json): (r: JsObject)
    ensures j.JObj? ==> r == j.fields
    ensures !j.JObj? ==> r == map[]
  {
    if j.JObj? then j.fields else map[]
  }

  /** `o.k`, `undefined` when missing. */
  function Get(o: JsObject, k: string): (r: Option<Json>)
    ensures r.Some? <==> k in o
    ensures r.Some? ==> r.value == o[k]
  {
    if k in o then Some(o[k]) else None
  }

  /** `a || b`. */
  function OrJs(a: Option<Json>, b: Option<Json>): (r: Option<Json>)
    ensures a.Some? && IsTruthy(a.value) ==> r == a
    ensures !(a.Some? && IsTruthy(a.value)) ==> r == b
  {
    if a.Some? && IsTruthy(a.value) then a else b
  }

  /** A property whose value is `undefined` is left out of the object (and of its JSON). */
  function Put(o: JsObject, k: string, v: Option<Json>): (r: JsObject)
    ensures Get(r, k) == v
    ensures forall j :: j != k ==> Get(r, j) == Get(o, j)
  {
    if v.Some? then o[k := v.value] else o - {k}
  }

  function StrArr(xs: seq<string>): (r: Json)
    ensures r.JArr? && |r.items| == |xs|
    ensures forall i :: 0 <= i < |xs| ==> r.items[i] == JStr(xs[i])
  {
    JArr(seq(|xs|, i requires 0 <= i < |xs| => JStr(xs[i])))
  }
}
