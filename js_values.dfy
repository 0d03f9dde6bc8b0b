/**
 * The values `JSON.parse` can produce, and the two things the import page
 * does with them: property reads and JavaScript truthiness.
 */
module JsValues {
  import opened Optional

  datatype Json =
    | JNull
    | JBool(b: bool)
    | JNumber(n: real)
    | JString(s: string)
    | JArray(elements: seq<Json>)
    | JObject(members: map<string, Json>)

  /** `!!v`: false, 0 (or -0), "" and null are falsy; arrays and objects, even empty, are truthy. */
  predicate Truthy(v: Json) {
    match v
    case JNull => false
    case JBool(b) => b
    case JNumber(n) => n != 0.0
    case JString(s) => s != ""
    case JArray(_) => true
    case JObject(_) => true
  }

  /**
   * The falsy JSON values are exactly `null`, `false`, zero and the empty
   * string; every array and object, even an empty one, is truthy.
   */
  lemma FalsyValues(v: Json)
    ensures !Truthy(v) <==> v == JNull || v == JBool(false) || v == JNumber(0.0) || v == JString("")
    ensures v.JArray? || v.JObject? ==> Truthy(v)
  {
  }

  /** Truthiness of a property read, where `None` is `undefined` (falsy). */
  predicate TruthyField(v: Option<Json>) {
    v.Some? && Truthy(v.value)
  }

  /**
   * The property names the import page reads. None of them is inherited
   * from `Object.prototype`, `String.prototype` or `Array.prototype`, so
   * only an object's own members answer them.
   */
  const PayloadProperties: set<string> := {"name", "provider", "model", "baseUrl", "key"}

  /**
   * `v[name]` for a non-null parsed value and one of the page's property
   * names: an object yields its own member or `undefined`; booleans,
   * numbers, strings and arrays carry none of these names. Reading a
   * property of `null` throws a TypeError, hence the precondition; callers
   * branch on `JNull` first.
   */
  function Property(v: Json, name: string): Option<Json>
    requires !v.JNull? && name in PayloadProperties
  {
    match v
    case JObject(m) => if name in m then Some(m[name]) else None
    case _ => None
  }
}
