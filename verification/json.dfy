/** JSON values: the bodies the handler answers with and the remote API's
    response bodies it relays. Serialisation to text is not modelled. */
module JsonValues {

  datatype Json =
    | JNull
    | JBool(b: bool)
    | JNumber(n: real)
    | JString(s: string)
    | JArray(items: seq<Json>)
    | JObject(members: seq<(string, Json)>)
}
