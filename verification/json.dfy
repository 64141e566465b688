/** The parsed form of one JSON document, as the JSON parser inside
    pydantic's `model_validate_json` hands it to validation. Floating-point
    numbers are kept as their literal text: their value is never inspected
    by the loader. */
module JsonValues {

  datatype Json =
    | JNull
    | JBool(b: bool)
    | JInt(i: int)
    | JFloat(literal: string)
    | JString(s: string)
    | JArray(items: seq<Json>)
    | JObject(fields: map<string, Json>)

  /** A JSON object: member name to value. A repeated member name has
      already been resolved by the parser. */
  type Object = map<string, Json>

  /** Member `k` of `o` is present and holds `v`. */
  predicate Holds(o: Object, k: string, v: Json)
  {
    k in o && o[k] == v
  }
}
