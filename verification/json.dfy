/**
 * JSON values as they arrive from `response.json()`, together with the two
 * JavaScript notions the source relies on: reading a property of a value and
 * the truthiness of a value.
 */
module JsonValues {
  import opened Wrappers

  /** A parsed JSON document. Numbers are finite, so `real` is enough. */
  datatype Json =
    | JNull
    | JBool(b: bool)
    | JNum(n: real)
    | JStr(s: string)
    | JArr(items: seq<Json>)
    | JObj(fields: map<string, Json>)

  /**
   * `value[key]` in JavaScript for a value that is not null: a JSON object
   * yields its own member, every other value yields `undefined` (None).
   * Reading a property of null throws, so null is excluded by the caller.
   */
  function Member(value: Json, key: string): Option<Json>
    requires !value.JNull?
  {
    if value.JObj? && key in value.fields then Some(value.fields[key]) else None
  }

  /** JavaScript truthiness of a JSON value (NaN cannot occur in JSON). */
  predicate Truthy(value: Json)
  {
    match value
    case JNull => false
    case JBool(b) => b
    case JNum(n) => n != 0.0
    case JStr(s) => s != ""
    case JArr(_) => true
    case JObj(_) => true
  }
}
