/** The values that `json.loads` produces and `json.dump` writes. */
module JsonData {

  /** Numbers are kept as reals (JSON does not tell integers from floats in a
      way the pipeline cares about); objects are maps, because key order only
      affects the serialized layout, which is not modelled. */
  datatype Json =
    | JNull
    | JBool(b: bool)
    | JNumber(n: real)
    | JString(s: string)
    | JArray(items: seq<Json>)
    | JObject(fields: map<string, Json>)
}
