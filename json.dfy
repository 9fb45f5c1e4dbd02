/**
 * JSON values as `org.json.JSONObject` holds them. Numbers are kept as
 * integers; nothing in the modelled core looks inside a number.
 */
module Json {

  datatype Json =
    | JNull
    | JBool(b: bool)
    | JNumber(n: int)
    | JString(s: string)
    | JArray(items: seq<Json>)
    | JObject(fields: map<string, Json>)

  /** The members of a JSON object, by key. */
  type JsonObject = map<string, Json>

}
