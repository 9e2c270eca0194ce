/** The value a JSON document denotes, as the model's two processes exchange it. */
module JsonValue {

  /** Objects are maps: the order of keys is not part of the model. Numbers
      are integers only: `JSON.parse` yields doubles, so a value such as 1.5
      is not representable. The script prints no numbers, so no property
      here depends on this. */
  datatype Json =
    | JNull
    | JBool(b: bool)
    | JNumber(n: int)
    | JString(s: string)
    | JArray(items: seq<Json>)
    | JObject(fields: map<string, Json>)
}
