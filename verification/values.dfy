/** The values that cross the API boundary. */
module Values {

  /** A JSON value as the web layer parses it from a request body. The pipeline never
      inspects feature values: it only moves them from the payload to the model and to
      the table, so no operation here looks inside a `Json`. */
  datatype Json =
    | JNull
    | JBool(b: bool)
    | JInt(i: int)
    | JReal(r: real)
    | JStr(s: string)
    | JArray(items: seq<Json>)
    | JObject(fields: map<string, Json>)

  /** A raised exception as the handlers report it: its type name (`type(e).__name__`)
      and its message (`str(e)`). */
  datatype Exc = Exc(typeName: string, message: string)
}
