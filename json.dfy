/**
 * Parsed JSON values as JavaScript code sees them: property access on a parsed value and
 * JavaScript truthiness.
 */
module JsonValues {
  import opened Wrappers

  /** A JSON value; numbers are kept exactly as the decimals JSON writes. */
  datatype Json =
    | JNull
    | JBool(b: bool)
    | JNumber(n: real)
    | JString(s: string)
    | JArray(items: seq<Json>)
    | JObject(fields: map<string, Json>)

  /**
   * `value?.name` or `value.name` on a value that is not null: an object's own field, and
   * `undefined` (None) for every other value, arrays and strings included.
   */
  function Property(value: Json, name: string): Option<Json> {
    match value
    case JObject(fields) => if name in fields then Some(fields[name]) else None
    case _ => None
  }

  /** JavaScript truthiness of a JSON value: null, false, 0 and "" are falsy. */
  predicate TruthyJson(v: Json) {
    match v
    case JNull => false
    case JBool(b) => b
    case JNumber(n) => n != 0.0
    case JString(s) => s != ""
    case JArray(_) => true
    case JObject(_) => true
  }

  /** The object `{ [name]: value }` that `JSON.stringify` writes and `JSON.parse` reads back. */
  function Single(name: string, value: Json): (r: Json)
    ensures Property(r, name) == Some(value)
    ensures forall other :: other != name ==> Property(r, other) == None
  {
    JObject(map[name := value])
  }
}
