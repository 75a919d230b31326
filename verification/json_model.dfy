/** The JSON values exchanged with clients and backends (integers only: no field of the
    modelled records is a float). */
module JsonModel {

  datatype Json =
    | JNull
    | JBool(b: bool)
    | JInt(i: int)
    | JStr(s: string)
    | JArray(items: seq<Json>)
    | JObject(members: seq<(string, Json)>)
}
