/** The values `JSON.parse` can produce. Object members are kept as a map
    from key to value (member order is not modelled). */
module JsonValues {
  import opened Wrappers

  datatype Json =
    | JNull
    | JBool(b: bool)
    | JNum(n: real)
    | JStr(s: string)
    | JArr(items: seq<Json>)
    | JObj(fields: map<string, Json>)

  /** `obj[key]` in JavaScript: the member, or `undefined` (None). The
      repository reads a record under its id the same way. */
  function Member<V>(fields: map<string, V>, key: string): (r: Option<V>)
    ensures r.Some? <==> key in fields
    ensures r.Some? ==> r.value == fields[key]
  {
    if key in fields then Some(fields[key]) else None
  }
}
