/** The load-test responder: a fixed mapping from a path segment to a status and its message. */
module LoadTest {
  import opened Wrappers
  import opened Http

  /** The reason phrases of section 15 of RFC 9110 for the four codes the responder uses. */
  const ReasonPhrases: map<int, string> := map[
    200 := "OK",
    400 := "Bad Request",
    404 := "Not Found",
    500 := "Internal Server Error"]

  /** StatusCode::from_u16: a code is accepted when it has three digits. */
  function FromU16(code: int): (r: Option<int>)
    ensures r.Some? <==> 100 <= code <= 999
    ensures r.Some? ==> r.value == code
  {
    if 100 <= code <= 999 then Some(code) else None
  }

  /**
   * The `match` of status_handler. The mapping is total and lands in four
   * codes: each recognised segment selects the code it spells, every other
   * segment ("404" and "201" included) selects 404, and the message is
   * always the code's reason phrase.
   */
  function StatusFor(path: string): (r: (int, string))
    ensures r.0 in ReasonPhrases && r.1 == ReasonPhrases[r.0]
    ensures path == "200" <==> r.0 == 200
    ensures path == "400" <==> r.0 == 400
    ensures path == "500" <==> r.0 == 500
    ensures path !in {"200", "400", "500"} <==> r.0 == 404
  {
    match path
    case "200" => (200, "OK")
    case "400" => (400, "Bad Request")
    case "500" => (500, "Internal Server Error")
    case _ => (404, "Not Found")
  }

  /**
   * status_handler: the response is built from the selected code, which
   * always passes from_u16 (so the unwrap never panics), and carries the
   * paired message as its body.
   */
  function StatusHandler(path: string): (r: Option<Response>)
    ensures r.Some?
    ensures r.value.status == StatusFor(path).0 && r.value.body == Text(StatusFor(path).1)
    ensures r.value.status in ReasonPhrases && r.value.body == Text(ReasonPhrases[r.value.status])
  {
    var (code, message) := StatusFor(path);
    match FromU16(code)
    case Some(status) => Some(Response(status, map[], Text(message)))
    case None => None
  }
}
