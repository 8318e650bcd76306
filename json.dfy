/** JSON values and the JSON codec the proxy calls (`JSON.parse`, `JSON.stringify`). */
module Json {
  import opened Wrappers

  /** A JSON value. Numbers are kept as integers; object key order is not kept. */
  datatype Json =
    | JNull
    | JBool(b: bool)
    | JNumber(n: int)
    | JString(s: string)
    | JArray(elems: seq<Json>)
    | JObject(fields: map<string, Json>)

  /** JavaScript truthiness of a JSON value, as used by `if (structuredContent)`. */
  predicate Truthy(j: Json) {
    match j
    case JNull => false
    case JBool(b) => b
    case JNumber(n) => n != 0
    case JString(s) => s != ""
    case _ => true
  }

  /**
   * The JSON codec, taken as given: `parse` is `JSON.parse` (None where it throws),
   * `stringify` is `JSON.stringify(v)` and `pretty` is `JSON.stringify(v, null, 2)`.
   */
  datatype Codec = Codec(
    parse: string -> Option<Json>,
    stringify: Json -> string,
    pretty: Json -> string)
}
