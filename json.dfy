/**
 * Decoded JSON values, as `json.loads` produces them and `json.dumps`
 * consumes them. Floating-point numbers are not modelled.
 */
module JsonValues {
  datatype Json =
    | JNull
    | JBool(b: bool)
    | JNumber(n: int)
    | JString(s: string)
    | JArray(items: seq<Json>)
    | JObject(fields: map<string, Json>)
}
