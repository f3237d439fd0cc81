/**
 * Parsed JSON values and the few JavaScript operations the extension applies
 * to them: truthiness and property reads.
 */
module Json {
  import opened Wrappers

  /** A value produced by `JSON.parse`; duplicate object keys keep the last value, as in JavaScript. */
  datatype Json =
    | JNull
    | JBool(b: bool)
    | JNum(n: real)
    | JStr(s: string)
    | JArr(items: seq<Json>)
    | JObj(fields: map<string, Json>)

  /** JavaScript truthiness (`!!v`); JSON has no `NaN`, and `-0` is the real `0`. */
  predicate Truthy(v: Json) {
    match v
    case JNull => false
    case JBool(b) => b
    case JNum(n) => n != 0.0
    case JStr(s) => |s| > 0
    case JArr(_) => true
    case JObj(_) => true
  }

  /**
   * The property read `v.key` on a value that is not `null` (reading from
   * `null` throws), with `None` for `undefined`. Only own properties of
   * objects are found: the keys read by the extension are not inherited by
   * strings, numbers, booleans or arrays.
   */
  function Get(v: Json, key: string): (r: Option<Json>)
    requires !v.JNull?
    ensures r.Some? <==> v.JObj? && key in v.fields
  {
    if v.JObj? && key in v.fields then Some(v.fields[key]) else None
  }

  /** Truthiness of a property read: `undefined` is falsy. */
  predicate Present(p: Option<Json>) {
    p.Some? && Truthy(p.value)
  }
}
