/**
 * The few pieces of JavaScript value semantics the pipeline relies on:
 * JSON values as `JSON.parse` produces them, truthiness, property access
 * on a parsed value, and the `table[key] || fallback` idiom used on
 * locale tables.
 */
module JsValues {
  import opened Wrappers

  /** A JSON value. Object members are a map: `JSON.parse` keeps the last of duplicate keys. */
  datatype JsonValue =
    | JNull
    | JBool(b: bool)
    | JNumber(n: real)
    | JString(s: string)
    | JArray(items: seq<JsonValue>)
    | JObject(members: map<string, JsonValue>)

  /** JavaScript truthiness of a JSON value (NaN is not a JSON value). */
  predicate Truthy(v: JsonValue) {
    match v
    case JNull => false
    case JBool(b) => b
    case JNumber(n) => n != 0.0
    case JString(s) => s != ""
    case JArray(_) => true
    case JObject(_) => true
  }

  /**
   * `value[key]`: a member of an object, `None` standing for `undefined`.
   * Every other kind of value is treated as having no such property.
   */
  function Property(value: JsonValue, key: string): (r: Option<JsonValue>)
    ensures r.Some? <==> value.JObject? && key in value.members
    ensures r.Some? ==> r.value == value.members[key]
  {
    if value.JObject? && key in value.members then Some(value.members[key]) else None
  }

  /**
   * `table[key] || fallback` on a table of strings: the entry when it is
   * present and not the (falsy) empty string, the fallback otherwise.
   */
  function EntryOr(table: map<string, string>, key: string, fallback: string): (r: string)
    ensures key in table && table[key] != "" ==> r == table[key]
    ensures !(key in table && table[key] != "") ==> r == fallback
    ensures fallback != "" ==> r != ""
  {
    if key in table && table[key] != "" then table[key] else fallback
  }
}
