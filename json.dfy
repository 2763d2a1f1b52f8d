/**
 * Values as `JSON.parse` produces them, and the two pieces of JavaScript
 * semantics that the server code applies to them: reading a property and
 * truthiness.
 */
module Json {
  import opened Wrappers

  /** A parsed JSON value. Duplicate object keys collapse to the last one, as `JSON.parse` does. */
  datatype JsonValue =
    | JNull
    | JBool(b: bool)
    | JNumber(n: real)
    | JString(s: string)
    | JArray(items: seq<JsonValue>)
    | JObject(fields: map<string, JsonValue>)

  /**
   * `v[key]` for a key that no built-in prototype defines: an object yields its
   * own field or `undefined` (None); booleans, numbers, strings and arrays yield
   * `undefined`. Reading a property of `null` throws, hence the precondition.
   */
  function Property(v: JsonValue, key: string): Option<JsonValue>
    requires !v.JNull?
  {
    if v.JObject? && key in v.fields then Some(v.fields[key]) else None
  }

  /** JavaScript truthiness; None stands for `undefined`. */
  predicate Truthy(v: Option<JsonValue>)
  {
    match v
    case None => false
    case Some(JNull) => false
    case Some(JBool(b)) => b
    case Some(JNumber(n)) => n != 0.0
    case Some(JString(s)) => s != ""
    case Some(JArray(_)) => true
    case Some(JObject(_)) => true
  }

  /** `Array.isArray(v)`; `undefined` is not an array. */
  predicate IsArray(v: Option<JsonValue>)
  {
    v.Some? && v.value.JArray?
  }
}
