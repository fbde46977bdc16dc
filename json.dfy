/** The JSON values that flow through the client: filter fragments, query
    parameters and decoded response bodies. Python's `None` and JSON `null`
    are the same value, `JNull`. Objects are maps: key order is not modelled. */
module Json {

  datatype Json =
    | JNull
    | JBool(b: bool)
    | JInt(i: int)
    | JStr(s: string)
    | JList(items: seq<Json>)
    | JObject(fields: map<string, Json>)

  /** The one-key object `{key: value}`. */
  function Single(key: string, value: Json): (r: Json)
    ensures r.JObject? && r.fields.Keys == {key} && r.fields[key] == value
  {
    JObject(map[key := value])
  }
}
