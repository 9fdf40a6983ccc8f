/**
 * The request-decision logic of the Go debug service: the /reset switch,
 * the header flattening and status capture of the logging middleware, the
 * readiness flag raised on shutdown, the validation of the stress
 * parameters, the POST-only guards and the single "last uploaded file" slot.
 */
module DebugServiceGo {
  import opened Wrappers
  import opened Http
  import opened GoStrconv
  import Logging

  /** url.Values and http.Header: every key maps to the list of its values. */
  type Values = map<string, seq<string>>

  datatype Request = Request(
    verb: string,
    query: Values,
    header: Values,
    url: string,
    remoteAddr: string)

  /** Values.Get: the first value listed for the key, or "" when there is none. */
  function Get(q: Values, key: string): (v: string)
    ensures key in q && q[key] != [] ==> v == q[key][0]
    ensures key !in q || q[key] == [] ==> v == ""
  {
    if key in q && q[key] != [] then q[key][0] else ""
  }

  /** The headers http.Error sets beside the status and the message. */
  const ErrorHeaders: map<string, string> :=
    map["Content-Type" := "text/plain; charset=utf-8", "X-Content-Type-Options" := "nosniff"]

  /** http.Error: the status code and a plain-text body holding the message and a newline. */
  function Error(message: string, code: int): (r: Response)
    ensures r.status == code && r.headers == ErrorHeaders
    ensures r.body == Text(message + "\n")
  {
    Response(code, ErrorHeaders, Text(message + "\n"))
  }

  const MethodNotAllowed: Response := Error("Method not allowed", StatusMethodNotAllowed)

  /** The guard at the top of /debug, /log, /proxy, /custom-headers and /upload. */
  function PostGuard(req: Request): (r: Option<Response>)
    ensures r.Some? <==> req.verb != "POST"
    ensures r.Some? ==> r.value == MethodNotAllowed
  {
    if req.verb != "POST" then Some(MethodNotAllowed) else None
  }

  // ---------------------------------------------------------------- /reset

  /** `do, _ := strconv.ParseBool(...)`: the discarded error leaves `do` false. */
  function ResetRequested(req: Request): (b: bool)
    ensures b <==> Get(req.query, "do") in TrueSpellings
  {
    ParseBool(Get(req.query, "do")).GetOr(false)
  }

  /**
   * /reset marks the response with `Connection: close` and a fixed text
   * exactly when `do` is a true spelling; otherwise it answers with a JSON
   * message and no header. Both answers have status 200.
   */
  function ResetHandler(req: Request): (r: Response)
    ensures r.status == StatusOK
    ensures "Connection" in r.headers <==> Get(req.query, "do") in TrueSpellings
    ensures Get(req.query, "do") in TrueSpellings ==>
      r.headers == map["Connection" := "close"] && r.body == Text("Connection will be reset")
    ensures Get(req.query, "do") !in TrueSpellings ==>
      r.headers == map[] && r.body == JsonBody(StrObj(map["message" := "Reset not performed"]))
  {
    if ResetRequested(req) then
      Response(StatusOK, map["Connection" := "close"], Text("Connection will be reset"))
    else
      JsonOK(StrObj(map["message" := "Reset not performed"]))
  }

  // ------------------------------------------------------- logging middleware

  /** The flattened form of a header map: the first value of every non-empty list. */
  ghost predicate Flattens(headers: Values, h: map<string, string>)
  {
    && (forall k :: k in h <==> k in headers && headers[k] != [])
    && (forall k :: k in h ==> h[k] == headers[k][0])
  }

  /** convertHeaders: keep the first value of every key whose list is non-empty. */
  method ConvertHeaders(headers: Values) returns (h: map<string, string>)
    ensures Flattens(headers, h)
  {
    h := map[];
    var todo := headers.Keys;
    while todo != {}
      invariant todo <= headers.Keys
      invariant forall k :: k in h <==> k in headers && k !in todo && headers[k] != []
      invariant forall k :: k in h ==> h[k] == headers[k][0]
      decreases todo
    {
      var k :| k in todo;
      var v := headers[k];
      if |v| > 0 {
        h := h[k := v[0]];
      }
      todo := todo - {k};
    }
  }

  /** A flattened header map answers every lookup as Values.Get does. */
  lemma FlattenedAgreesWithGet(headers: Values, h: map<string, string>, key: string)
    requires Flattens(headers, h)
    ensures (if key in h then h[key] else "") == Get(headers, key)
  {
  }

  /** The status the middleware logs after the handler's WriteHeader calls, oldest first. */
  function CapturedStatus(calls: seq<int>): int
  {
    if calls == [] then StatusOK else calls[|calls| - 1]
  }

  /** The responseWriter wrapper: remembers the status code and forwards every call. */
  class StatusRecorder {
    var statusCode: int
    /** The codes passed on to the wrapped writer, oldest first. */
    var forwarded: seq<int>

    ghost predicate Valid()
      reads this
    {
      statusCode == CapturedStatus(forwarded)
    }

    /** The middleware creates the wrapper with status 200 before the handler runs. */
    constructor ()
      ensures Valid() && forwarded == [] && statusCode == StatusOK
    {
      statusCode := StatusOK;
      forwarded := [];
    }

    method WriteHeader(code: int)
      requires Valid()
      modifies this
      ensures Valid()
      ensures statusCode == code
      ensures forwarded == old(forwarded) + [code]
    {
      statusCode := code;
      forwarded := forwarded + [code];
    }
  }

  // ------------------------------------------------------------------ /debug

  /**
   * The seconds /debug and /stateless sleep: 0 when the parameter is absent,
   * else the value Atoi returns beside its discarded error.
   */
  function SleepSeconds(req: Request): (n: int)
    ensures Get(req.query, "seconds") == "" ==> n == 0
    ensures Get(req.query, "seconds") != "" ==> n == AtoiValue(Get(req.query, "seconds"))
    ensures Atoi(Get(req.query, "seconds")).Some? ==> n == Atoi(Get(req.query, "seconds")).value
  {
    var seconds := Get(req.query, "seconds");
    if seconds != "" then AtoiValue(seconds) else 0
  }

  /** The request as /debug reports it. */
  function RequestInfo(req: Request): Json
  {
    JObj(map[
      "headers" := JObj(map k | k in req.header :: StrArr(req.header[k])),
      "method" := JStr(req.verb),
      "url" := JStr(req.url),
      "remote_addr" := JStr(req.remoteAddr)])
  }

  /**
   * /debug: after the POST guard, answers with the code given in
   * `status_code` or 200 when the parameter is absent, and reports the
   * request back. The code is the value Atoi returns beside its discarded
   * error: 0 after a syntax error, a 64-bit bound after a range error.
   */
  function DebugHandler(req: Request): (r: Response)
    ensures req.verb != "POST" ==> r == MethodNotAllowed
    ensures req.verb == "POST" ==> r.body == JsonBody(RequestInfo(req)) && r.headers == map[]
    ensures req.verb == "POST" && Get(req.query, "status_code") == "" ==> r.status == StatusOK
    ensures req.verb == "POST" && Get(req.query, "status_code") != "" ==>
      r.status == AtoiValue(Get(req.query, "status_code"))
    ensures req.verb == "POST" && Atoi(Get(req.query, "status_code")).Some? ==>
      r.status == Atoi(Get(req.query, "status_code")).value
  {
    match PostGuard(req)
    case Some(denied) => denied
    case None =>
      var statusCode := Get(req.query, "status_code");
      var code := if statusCode != "" then AtoiValue(statusCode) else StatusOK;
      Response(code, map[], JsonBody(RequestInfo(req)))
  }

  // -------------------------------------------------------------------- /log

  /**
   * /log: after the POST guard, writes the message at the level named by
   * `level` and echoes both parameters unchanged. No log entry is
   * written when the guard refuses the request.
   */
  function LogHandler(req: Request): (r: (Option<Logging.Entry>, Response))
    ensures req.verb != "POST" ==> r == (None, MethodNotAllowed)
    ensures req.verb == "POST" ==>
      r.0 == Some(Logging.Entry(Logging.LevelFor(Get(req.query, "level")), Get(req.query, "message")))
    ensures req.verb == "POST" ==>
      r.1 == JsonOK(StrObj(map["message" := Get(req.query, "message"), "level" := Get(req.query, "level")]))
  {
    match PostGuard(req)
    case Some(denied) => (None, denied)
    case None =>
      var message := Get(req.query, "message");
      var level := Get(req.query, "level");
      (Some(Logging.Entry(Logging.LevelFor(level), message)),
       JsonOK(StrObj(map["message" := message, "level" := level])))
  }

  // ----------------------------------------------------- /proxy, /custom-headers

  /**
   * /proxy: after the POST guard, everything happens in the JSON decoder and
   * the HTTP client. `upstream` is what they produced: the upstream headers
   * and decoded body, or the error text of the first step that failed.
   */
  function ProxyHandler(req: Request, upstream: Result<(Values, Json)>): (r: Response)
    ensures req.verb != "POST" ==> r == MethodNotAllowed
    ensures req.verb == "POST" && upstream.Err? ==> r == Error(upstream.error, StatusBadRequest)
    ensures req.verb == "POST" && upstream.Ok? ==>
      r.status == StatusOK && r.headers == map["Content-Type" := "application/json"]
  {
    match PostGuard(req)
    case Some(denied) => denied
    case None =>
      match upstream
      case Err(e) => Error(e, StatusBadRequest)
      case Ok((headers, body)) =>
        Response(StatusOK, map["Content-Type" := "application/json"],
          JsonBody(JObj(map["response" := JObj(map[
            "headers" := JObj(map k | k in headers :: StrArr(headers[k])),
            "body" := body])])))
  }

  /**
   * /custom-headers: after the POST guard, the decoded JSON object's pairs
   * become the response headers; a body that does not decode is a 400.
   */
  function CustomHeadersHandler(req: Request, decoded: Result<map<string, string>>): (r: Response)
    ensures req.verb != "POST" ==> r == MethodNotAllowed
    ensures req.verb == "POST" && decoded.Err? ==> r == Error(decoded.error, StatusBadRequest)
    ensures req.verb == "POST" && decoded.Ok? ==>
      r.status == StatusOK && r.headers == decoded.value && r.body == Text("")
  {
    match PostGuard(req)
    case Some(denied) => denied
    case None =>
      match decoded
      case Err(e) => Error(e, StatusBadRequest)
      case Ok(headers) => Response(StatusOK, headers, Text(""))
  }

  // ---------------------------------------------------------- /stress/*

  datatype Resource = Cpu | Memory

  function PercentKey(res: Resource): string {
    match res
    case Cpu => "cpu_percent"
    case Memory => "memory_percent"
  }

  function PercentError(res: Resource): string {
    match res
    case Cpu => "CPU percentage must be between 0 and 100"
    case Memory => "Memory percentage must be between 0 and 100"
  }

  function MessagePrefix(res: Resource): string {
    match res
    case Cpu => "CPU stressed at "
    case Memory => "Memory stressed at "
  }

  const DurationError := "Duration must be non-negative"

  /** The success message, with both values written by %d. */
  function StressMessage(res: Resource, percent: int, duration: int): string
  {
    MessagePrefix(res) + FormatInt(percent) + "% for " + FormatInt(duration) + " seconds"
  }

  predicate ValidPercent(p: Option<int>) { p.Some? && 0 <= p.value <= 100 }

  predicate ValidDuration(d: Option<int>) { d.Some? && d.value >= 0 }

  /**
   * /stress/cpu and /stress/memory: the percentage is checked first, then
   * the duration; each check answers 400 with its own message. Only when
   * both pass is the workload started and the values reported.
   */
  function StressHandler(res: Resource, req: Request): (r: Response)
    ensures
      var p := Atoi(Get(req.query, PercentKey(res)));
      var d := Atoi(Get(req.query, "duration"));
      && (r.status == StatusOK <==> ValidPercent(p) && ValidDuration(d))
      && (!ValidPercent(p) ==> r == Error(PercentError(res), StatusBadRequest))
      && (ValidPercent(p) && !ValidDuration(d) ==> r == Error(DurationError, StatusBadRequest))
      && (ValidPercent(p) && ValidDuration(d) ==>
            r == JsonOK(StrObj(map["message" := StressMessage(res, p.value, d.value)])))
  {
    var p := Atoi(Get(req.query, PercentKey(res)));
    if p.None? || p.value < 0 || p.value > 100 then
      Error(PercentError(res), StatusBadRequest)
    else
      var d := Atoi(Get(req.query, "duration"));
      if d.None? || d.value < 0 then
        Error(DurationError, StatusBadRequest)
      else
        JsonOK(StrObj(map["message" := StressMessage(res, p.value, d.value)]))
  }

  /** In a decimal spelling followed by '%', the first '%' stands right after the digits. */
  lemma FirstPercent(a: string, rest: string)
    requires AllDigits(a) && |rest| > 0 && rest[0] == '%'
    ensures (a + rest)[|a|] == '%'
    ensures forall i :: 0 <= i < |a| ==> (a + rest)[i] != '%'
  {
  }

  /** Two decimal spellings followed by '%' agree when the texts do. */
  lemma DigitsBeforePercent(a: string, b: string, rest1: string, rest2: string)
    requires AllDigits(a) && AllDigits(b)
    requires |rest1| > 0 && |rest2| > 0 && rest1[0] == '%' && rest2[0] == '%'
    requires a + rest1 == b + rest2
    ensures a == b && rest1 == rest2
  {
    FirstPercent(a, rest1);
    FirstPercent(b, rest2);
    assert |a| == |b|;
    assert a == (a + rest1)[..|a|] && b == (b + rest2)[..|b|];
  }

  lemma CancelAround(l: string, x: string, y: string, r: string)
    requires l + x + r == l + y + r
    ensures x == y
  {
    assert x == (l + x + r)[|l|..|l| + |x|];
    assert y == (l + y + r)[|l|..|l| + |y|];
  }

  lemma FormatIntInjective(m: int, n: int)
    requires InInt64(m) && InInt64(n) && FormatInt(m) == FormatInt(n)
    ensures m == n
  {
    AtoiFormatInt(m);
    AtoiFormatInt(n);
  }

  /** The digit strings of two messages with the same shape agree when the messages do. */
  lemma MessageParts(pre: string, f1: string, g1: string, f2: string, g2: string)
    requires AllDigits(f1) && AllDigits(f2)
    requires pre + f1 + "% for " + g1 + " seconds" == pre + f2 + "% for " + g2 + " seconds"
    ensures f1 == f2 && g1 == g2
  {
    var rest1 := "% for " + g1 + " seconds";
    var rest2 := "% for " + g2 + " seconds";
    assert pre + f1 + "% for " + g1 + " seconds" == pre + (f1 + rest1) + "";
    assert pre + f2 + "% for " + g2 + " seconds" == pre + (f2 + rest2) + "";
    CancelAround(pre, f1 + rest1, f2 + rest2, "");
    DigitsBeforePercent(f1, f2, rest1, rest2);
    CancelAround("% for ", g1, g2, " seconds");
  }

  /**
   * The accepted values can be read back from the success message: two
   * messages about the same resource are equal only when they report the
   * same percentage and the same duration.
   */
  lemma StressMessageDeterminesValues(res: Resource, p1: nat, d1: nat, p2: nat, d2: nat)
    requires InInt64(p1) && InInt64(p2) && InInt64(d1) && InInt64(d2)
    requires StressMessage(res, p1, d1) == StressMessage(res, p2, d2)
    ensures p1 == p2 && d1 == d2
  {
    MessageParts(MessagePrefix(res), FormatInt(p1), FormatInt(d1), FormatInt(p2), FormatInt(d2));
    FormatIntInjective(p1, p2);
    FormatIntInjective(d1, d2);
  }

  // ------------------------------------------------ process-wide state

  /** The service's two globals: the last uploaded file and the shutdown flag. */
  class DebugServer {
    var uploadedFilePath: string
    var terminating: bool

    /** The slot is empty or names a file directly under /tmp/. */
    ghost predicate Valid()
      reads this
    {
      uploadedFilePath == "" || (|uploadedFilePath| >= 5 && uploadedFilePath[..5] == "/tmp/")
    }

    /** Both globals start at Go's zero values. */
    constructor ()
      ensures Valid() && uploadedFilePath == "" && !terminating
    {
      uploadedFilePath := "";
      terminating := false;
    }

    /** The signal branch of main: the only place the flag is written. */
    method BeginShutdown()
      modifies this
      ensures terminating
      ensures uploadedFilePath == old(uploadedFilePath)
    {
      terminating := true;
    }

    /** /readiness: 503 while shutting down, `{"status":"OK"}` otherwise. */
    method Readiness() returns (r: Response)
      ensures terminating ==> r == Error("Server is shutting down", StatusServiceUnavailable)
      ensures !terminating ==> r == JsonOK(StrObj(map["status" := "OK"]))
      ensures r.status == StatusServiceUnavailable <==> terminating
    {
      if terminating {
        r := Error("Server is shutting down", StatusServiceUnavailable);
        return;
      }
      r := JsonOK(StrObj(map["status" := "OK"]));
    }

    /**
     * /upload. `form` is what r.FormFile returned (the file name, or its
     * error), `createErr` and `copyErr` the errors of os.Create and io.Copy.
     * The slot is set before the file is created, so it changes even when
     * creating or copying fails; it stays as it was when the guard or the
     * form refuses the request.
     */
    method Upload(req: Request, form: Result<string>, createErr: Option<string>, copyErr: Option<string>)
      returns (r: Response)
      requires Valid()
      modifies this
      ensures Valid()
      ensures terminating == old(terminating)
      ensures req.verb != "POST" ==> r == MethodNotAllowed && uploadedFilePath == old(uploadedFilePath)
      ensures req.verb == "POST" && form.Err? ==>
        r == Error(form.error, StatusBadRequest) && uploadedFilePath == old(uploadedFilePath)
      ensures req.verb == "POST" && form.Ok? ==> uploadedFilePath == "/tmp/" + form.value
      ensures req.verb == "POST" && form.Ok? && createErr.Some? ==>
        r == Error(createErr.value, StatusInternalServerError)
      ensures req.verb == "POST" && form.Ok? && createErr.None? && copyErr.Some? ==>
        r == Error(copyErr.value, StatusInternalServerError)
      ensures req.verb == "POST" && form.Ok? && createErr.None? && copyErr.None? ==>
        r == JsonOK(StrObj(map["filename" := form.value]))
    {
      var denied := PostGuard(req);
      if denied.Some? {
        r := denied.value;
        return;
      }
      if form.Err? {
        r := Error(form.error, StatusBadRequest);
        return;
      }
      uploadedFilePath := "/tmp/" + form.value;
      if createErr.Some? {
        r := Error(createErr.value, StatusInternalServerError);
        return;
      }
      if copyErr.Some? {
        r := Error(copyErr.value, StatusInternalServerError);
        return;
      }
      r := JsonOK(StrObj(map["filename" := form.value]));
    }

    /**
     * /download: the file in the slot, or a JSON message when nothing was
     * uploaded. `fileExists` says whether the slot names a file: http.ServeFile
     * answers a missing one with 404 "404 page not found". A failed create
     * leaves the slot naming such a path.
     */
    method Download(fileExists: bool) returns (r: Response)
      ensures uploadedFilePath == "" ==> r == JsonOK(StrObj(map["message" := "No file uploaded"]))
      ensures uploadedFilePath != "" && fileExists ==> r == Response(StatusOK, map[], FileBody(uploadedFilePath))
      ensures uploadedFilePath != "" && !fileExists ==> r == Error("404 page not found", StatusNotFound)
    {
      if uploadedFilePath == "" {
        r := JsonOK(StrObj(map["message" := "No file uploaded"]));
        return;
      }
      if !fileExists {
        r := Error("404 page not found", StatusNotFound);
        return;
      }
      r := Response(StatusOK, map[], FileBody(uploadedFilePath));
    }
  }
}
