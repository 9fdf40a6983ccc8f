/** The HTTP-level values the handlers produce: a JSON value, a body and a response. */
module Http {

  /** A JSON document as the frameworks' encoders produce it. */
  datatype Json =
    | JNull
    | JBool(b: bool)
    | JInt(i: int)
    | JStr(s: string)
    | JArr(items: seq<Json>)
    | JObj(fields: map<string, Json>)

  /** What a handler writes after the status line and headers. */
  datatype Body =
    | Text(text: string)          // raw bytes written by the handler
    | JsonBody(value: Json)       // an encoded JSON document
    | FileBody(path: string)      // a file served from disk by the framework

  datatype Response = Response(status: int, headers: map<string, string>, body: Body)

  const StatusOK := 200
  const StatusBadRequest := 400
  const StatusNotFound := 404
  const StatusMethodNotAllowed := 405
  const StatusInternalServerError := 500
  const StatusServiceUnavailable := 503

  /**
   * A 200 response whose body is the given JSON value, as Go's
   * json.NewEncoder(w).Encode and FastAPI's return of a dict or tuple write it.
   */
  function JsonOK(j: Json): Response {
    Response(StatusOK, map[], JsonBody(j))
  }

  /** A JSON object whose every field is a string. */
  function StrObj(m: map<string, string>): (j: Json)
    ensures j.JObj? && j.fields.Keys == m.Keys
    ensures forall k :: k in m ==> j.fields[k] == JStr(m[k])
  {
    JObj(map k | k in m :: JStr(m[k]))
  }

  /** A JSON array of strings. */
  function StrArr(vs: seq<string>): (j: Json)
    ensures j.JArr? && |j.items| == |vs|
    ensures forall i :: 0 <= i < |vs| ==> j.items[i] == JStr(vs[i])
  {
    JArr(seq(|vs|, i requires 0 <= i < |vs| => JStr(vs[i])))
  }
}
