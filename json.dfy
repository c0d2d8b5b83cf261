/**
 * Decoded JSON documents as Python's `json` module hands them to the
 * adapters (`response.json()`), together with the two pieces of Python
 * semantics the adapters rely on: `dict.get` and truthiness (for `or`).
 */
module Json {

  /** A decoded JSON value. JSON numbers are modelled as integers. */
  datatype Value =
    | JNull
    | JBool(b: bool)
    | JNum(n: int)
    | JStr(s: string)
    | JArray(elems: seq<Value>)
    | JObject(fields: map<string, Value>)

  /**
   * `item.get(key)`: Python's None when the key is absent. A JSON null
   * decodes to that same None, so the two cases give the same value.
   */
  function Get(item: map<string, Value>, key: string): Value {
    if key in item then item[key] else JNull
  }

  /** Python's `bool(v)` for a decoded JSON value. */
  predicate Truthy(v: Value) {
    match v
    case JNull => false
    case JBool(b) => b
    case JNum(n) => n != 0
    case JStr(s) => s != ""
    case JArray(xs) => xs != []
    case JObject(m) => m != map[]
  }

  /** Python's `a or b`: the first operand when it is truthy, else the second. */
  function Or(a: Value, b: Value): Value {
    if Truthy(a) then a else b
  }
}
