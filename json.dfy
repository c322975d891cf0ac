/**
 * JSON values as `JSON.parse` produces them, and the JavaScript truthiness
 * of such values, which is what the route's `!field` tests.
 */
module Json {
  import opened Wrappers

  /** A parsed JSON value. Numbers are kept as exact reals (a JSON text
      never denotes NaN or an infinity); objects are maps from key to value,
      so the order of keys is not represented. */
  datatype Json =
    | JNull
    | JBool(b: bool)
    | JNumber(n: real)
    | JString(s: string)
    | JArray(items: seq<Json>)
    | JObject(fields: map<string, Json>)

  /** JavaScript truthiness: `null`, `false`, `0` and `""` are falsy, every
      other JSON value (including `[]` and `{}`) is truthy. */
  predicate Truthy(v: Json)
  {
    match v
    case JNull => false
    case JBool(b) => b
    case JNumber(n) => n != 0.0
    case JString(s) => s != ""
    case JArray(_) => true
    case JObject(_) => true
  }

  /** Truthiness of a property read that may give `undefined` (`None`). */
  predicate Present(o: Option<Json>)
  {
    o.Some? && Truthy(o.value)
  }

  /** `v[key]` on a parsed value: only an object has own keys; reading any
      key of `null`, a number, a string, a boolean or an array gives
      `undefined` for the keys used here. */
  function Property(v: Json, key: string): (r: Option<Json>)
    ensures r.Some? <==> v.JObject? && key in v.fields
    ensures r.Some? ==> r.value == v.fields[key]
  {
    if v.JObject? && key in v.fields then Some(v.fields[key]) else None
  }
}
