/**
 * The request-decision logic of the Python (FastAPI) debug service: the
 * log-level dispatch, the single upload/download slot and the fixed
 * replies of /stateless and /echo.
 */
module DebugServicePy {
  import opened Wrappers
  import opened Http
  import Logging

  /** The reply the framework gives when a handler raises. */
  const InternalServerError: Response := Response(StatusInternalServerError, map[], Text("Internal Server Error"))

  /** The default body of /echo. */
  const DefaultEcho: Json := JObj(map["status" := JStr("OK")])

  /**
   * /echo returns the pair (request, status_code). FastAPI encodes a tuple
   * as a two-element JSON array, so `status_code` is echoed in the body and
   * the HTTP status stays 200; both fall back to their defaults when absent.
   */
  function Echo(request: Option<Json>, statusCode: Option<int>): (r: Response)
    ensures r.status == StatusOK && r.headers == map[]
    ensures r.body.JsonBody? && r.body.value.JArr? && |r.body.value.items| == 2
    ensures r.body.value.items[0] == if request.Some? then request.value else DefaultEcho
    ensures r.body.value.items[1] == JInt(if statusCode.Some? then statusCode.value else 200)
  {
    JsonOK(JArr([request.GetOr(DefaultEcho), JInt(statusCode.GetOr(200))]))
  }

  /**
   * /log writes the message at the level the `level` string names (debug
   * for any name it does not recognise) and returns both strings unchanged.
   */
  function Log(message: string, level: string): (r: (Logging.Entry, Response))
    ensures r.0.message == message
    ensures r.0.level == Logging.Info <==> level == "info"
    ensures r.0.level == Logging.Warning <==> level == "warning"
    ensures r.0.level == Logging.Error <==> level == "error"
    ensures r.0.level == Logging.Debug <==> level !in {"info", "warning", "error"}
    ensures r.1 == JsonOK(StrObj(map["message" := message, "level" := level]))
  {
    (Logging.Entry(Logging.LevelFor(level), message),
     JsonOK(StrObj(map["message" := message, "level" := level])))
  }

  /**
   * /stateless: the `Connection: close` pair is part of the JSON body; the
   * response itself carries no such header.
   */
  function Stateless(): (r: Response)
    ensures r.status == StatusOK && "Connection" !in r.headers
    ensures r.body == JsonBody(JObj(map[
      "status" := JStr("OK"),
      "headers" := JObj(map["Connection" := JStr("close")])]))
  {
    JsonOK(JObj(map["status" := JStr("OK"), "headers" := JObj(map["Connection" := JStr("close")])]))
  }

  /** How an f-string renders an optional file name: None becomes "None". */
  function Rendered(name: Option<string>): string
  {
    match name
    case Some(n) => n
    case None => "None"
  }

  /** The file name as the JSON reply carries it: null when the client sent none. */
  function NameJson(name: Option<string>): Json
  {
    match name
    case Some(n) => JStr(n)
    case None => JNull
  }

  /** The module-level `uploaded_file_path`. */
  class DebugApp {
    var uploadedFilePath: Option<string>

    /** Once set, the slot names a file directly under /tmp/. */
    ghost predicate Valid()
      reads this
    {
      uploadedFilePath.Some? ==>
        |uploadedFilePath.value| >= 5 && uploadedFilePath.value[..5] == "/tmp/"
    }

    constructor ()
      ensures Valid() && uploadedFilePath == None
    {
      uploadedFilePath := None;
    }

    /**
     * /upload. `writeFails` says whether opening or copying into the file
     * raised. The slot is set before the file is written, so the last
     * upload wins whether or not its write succeeds.
     */
    method Upload(filename: Option<string>, writeFails: bool) returns (r: Response)
      requires Valid()
      modifies this
      ensures Valid()
      ensures uploadedFilePath == Some("/tmp/" + Rendered(filename))
      ensures writeFails ==> r == InternalServerError
      ensures !writeFails ==> r == JsonOK(JObj(map["filename" := NameJson(filename)]))
    {
      uploadedFilePath := Some("/tmp/" + Rendered(filename));
      if writeFails {
        r := InternalServerError;
        return;
      }
      r := JsonOK(JObj(map["filename" := NameJson(filename)]));
    }

    /**
     * /download: the file in the slot if it is set (a non-empty path), else a
     * JSON message. `fileExists` says whether the path names a file:
     * FileResponse raises on a missing one, which the framework answers
     * with a 500. A failed upload leaves the slot naming such a path.
     */
    method Download(fileExists: bool) returns (r: Response)
      requires Valid()
      ensures uploadedFilePath.None? ==> r == JsonOK(StrObj(map["message" := "No file uploaded"]))
      ensures uploadedFilePath.Some? && fileExists ==> r == Response(StatusOK, map[], FileBody(uploadedFilePath.value))
      ensures uploadedFilePath.Some? && !fileExists ==> r == InternalServerError
    {
      if uploadedFilePath.Some? && uploadedFilePath.value != "" {
        if fileExists {
          r := Response(StatusOK, map[], FileBody(uploadedFilePath.value));
        } else {
          r := InternalServerError;
        }
      } else {
        r := JsonOK(StrObj(map["message" := "No file uploaded"]));
      }
    }
  }
}
