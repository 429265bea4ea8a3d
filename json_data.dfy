/** The JSON values exchanged with the API and held in resource properties. */
module JsonData {
  import opened Wrappers

  /** A JSON value. Objects are maps from key to value; key order is not modelled. */
  datatype Json =
    | JNull
    | JBool(b: bool)
    | JNum(n: int)
    | JStr(s: string)
    | JArr(items: seq<Json>)
    | JObj(fields: map<string, Json>)

  /** The empty object `{}`. */
  const EmptyObject: Json := JObj(map[])

  /** The string stored under `key` in an object, if there is one. */
  function StringField(j: Json, key: string): (r: Option<string>)
    ensures r.Some? <==> j.JObj? && key in j.fields && j.fields[key].JStr?
    ensures r.Some? ==> j.fields[key] == JStr(r.value)
  {
    if j.JObj? && key in j.fields && j.fields[key].JStr? then Some(j.fields[key].s) else None
  }
}
