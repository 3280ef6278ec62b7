/** JSON values as `JSON.parse` produces them, with the JavaScript semantics the
    code applies to them: truthiness, property access and optional chaining.
    Numbers are mathematical reals (NaN never comes out of `JSON.parse`). */
module Json {
  import opened Basics

  datatype Json =
    | JNull
    | JBool(b: bool)
    | JNum(n: real)
    | JStr(s: string)
    | JArr(elems: seq<Json>)
    | JObj(fields: map<string, Json>)

  /** The empty object literal `{}`. */
  const EmptyObject: Json := JObj(map[])

  /** JavaScript truthiness of a JSON value. */
  predicate Truthy(v: Json) {
    match v
    case JNull => false
    case JBool(b) => b
    case JNum(n) => n != 0.0
    case JStr(s) => s != []
    case JArr(_) => true
    case JObj(_) => true
  }

  /** Truthiness of a value that may be `undefined` (None). */
  predicate Present(v: Option<Json>) {
    v.Some? && Truthy(v.value)
  }

  /** `v || fallback` where `v` may be `undefined`. */
  function Or(v: Option<Json>, fallback: Json): (r: Json)
    ensures Present(v) ==> r == v.value
    ensures !Present(v) ==> r == fallback
  {
    if Present(v) then v.value else fallback
  }

  /** `v.key` for a key no JavaScript prototype defines: an own field of an
      object, `undefined` on every other non-null value, and a TypeError on
      `null`. */
  function Get(v: Json, key: string): (r: Try<Option<Json>>)
    ensures r.Raised? <==> v.JNull?
    ensures r.Returned? && r.value.Some? <==> v.JObj? && key in v.fields
    ensures r.Returned? && r.value.Some? ==> r.value.value == v.fields[key]
  {
    match v
    case JNull => Raised
    case JObj(m) => Returned(if key in m then Some(m[key]) else None)
    case _ => Returned(None)
  }

  /** `v?.key`: `undefined` when `v` is `null` or `undefined`, never throws. */
  function GetOpt(v: Option<Json>, key: string): (r: Option<Json>)
    ensures r.Some? <==> v.Some? && v.value.JObj? && key in v.value.fields
    ensures r.Some? ==> r.value == v.value.fields[key]
  {
    if v.None? || v.value.JNull? then None else Get(v.value, key).value
  }
}
