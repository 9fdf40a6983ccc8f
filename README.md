# Request-decision logic of the network test services

This project models, in Dafny, the deterministic decisions inside a set of
small network test services, and proves what those decisions promise.

- **Go debug service.** `/reset` reads its `do` flag with `strconv.ParseBool`. A true value gives `Connection: close` and a fixed text; anything else gives a JSON "not performed" message. The logging middleware flattens header maps and its `responseWriter` wrapper records the status code. The `terminating` flag turns `/readiness` into a 503. The two stress handlers validate their parameters. Five handlers refuse any method other than POST. There is one process-wide "last uploaded file" slot.
- **Python (FastAPI) debug service.** `/log` dispatches on the level name. `/upload` and `/download` share the `uploaded_file_path` slot. `/stateless` and `/echo` give fixed replies.
- **Resource stress generator.** Covers the bounds a request must meet, the thread count and start/join loops of the CPU workload, and the chunked allocation loop of the memory workload, whose chunk list is cleared in `finally`.
- **Load-test responder.** A total mapping from a path segment to a status code and its message.
- **Health aggregator.** Probe outcomes of five fixed services are folded into one verdict and an HTTP status.

Handlers become functions from the request to a `Response` (status, headers, body). Process-wide variables that handlers update become fields of a class: `DebugServer` for the Go globals, `DebugApp` for the Python global. Only the methods that write a field carry a `modifies` clause. The header flattening of the logging middleware and the thread and allocation loops of the stress generator become `while`/`for` loops with invariants; the `/custom-headers` loop that copies decoded pairs into the response headers is a map in `CustomHeadersHandler`.

Outside inputs are passed in as parameters:
- what `r.FormFile`, `os.Create`, `io.Copy`, the JSON decoder and the HTTP client returned;
- whether a Python file write raised, and whether the file `/download` serves exists;
- the total memory and how much the allocator can hand out;
- the number of CPU cores;
- whether each health probe resolved.

`GoStrconv` models the parts of Go's `strconv` the handlers depend on: `ParseBool`, `ParseInt`/`Atoi` with their digit-by-digit scan and 64-bit clamp, the value `Atoi` returns beside an error, and `%d` formatting.

Where the code differs from how the services are usually described, the model follows the code:
- The Go stress handlers report the *parsed* integers through `%d`, not the raw query text. `cpu_percent=007` is reported as `7`. `StressMessageDeterminesValues` proves that the reported values can still be read back from the message.
- Python `/echo` returns the tuple `(request, status_code)`. FastAPI encodes a tuple as a two-element JSON array, so `status_code` appears in the body and the HTTP status is always 200.
- Python `/stateless` puts `{"Connection": "close"}` inside the JSON body. It is not a response header.
- Python `/upload` with no file name stores the path `/tmp/None` and replies `{"filename": null}`.
- The Go `/debug` handler discards the parse error of `status_code` and passes on the int `Atoi` returned beside it. That is 0 for a syntax error such as `abc` or `1x2`. It is the 64-bit bound on the side of the sign for a range error, and a run of digits past the `uint64` range is a range error even when text follows it: `99999999999999999999x` gives 9223372036854775807.
- The load-test responder answers `"404"` and `"201"` alike with 404.

## Model

| member | source | states |
|---|---|---|
| GoStrconv.ParseBool | debug-service-go/main.go:506 | a value exactly for the six true and six false spellings, and an error for every other string |
| GoStrconv.ParseInt | debug-service-go/main.go:219 | the value is always 64-bit; no error exactly for a signed non-empty digit string in range, with its value; a syntax error (value 0) exactly for an empty number or a non-digit before the digit run passes the uint64 range; a range error gives the bound on the side of the sign |
| GoStrconv.ScanUintDigitRun | debug-service-go/main.go:219 | ParseUint's left-to-right digit loop ends as the leading digit run decides: a range error when the run passes the uint64 range, else a syntax error when text follows the run, else the run's value |
| GoStrconv.Atoi | debug-service-go/main.go:452-462 | succeeds exactly on an optional sign followed by at least one digit whose signed value is inside the 64-bit range, and then gives that value; the empty parameter is an error |
| GoStrconv.AtoiValue | debug-service-go/main.go:217-220 | the int returned beside a discarded error: always 64-bit; the parsed value on success; 0 for an empty number or a non-digit met before the digits pass the uint64 range; the bound on the side of the sign for a digit run past uint64 (whatever follows) or an all-digit value out of 64-bit range |
| GoStrconv.AtoiValueExamples | debug-service-go/main.go:217-220 | twenty nines followed by `x` give the largest 64-bit int, with a minus the smallest; `1x2` gives 0 |
| GoStrconv.FormatInt | debug-service-go/main.go:474-476 | `%d` gives a non-empty text: digits only for a non-negative number, a leading minus for a negative one |
| GoStrconv.AtoiFormatInt | debug-service-go/main.go:474-476 | reading a `%d`-formatted 64-bit integer back with Atoi gives the same integer |
| DebugServiceGo.Get | debug-service-go/main.go:506 | the first value listed for the key, or "" when the key is missing or its list is empty |
| DebugServiceGo.Error | debug-service-go/main.go:199 | http.Error: the given status, the plain-text and nosniff headers, and the message followed by a newline |
| DebugServiceGo.PostGuard | debug-service-go/main.go:206-209 | refuses exactly the non-POST methods, always with 405 "Method not allowed" |
| DebugServiceGo.ResetRequested | debug-service-go/main.go:506 | `do` is true iff the query value is a ParseBool true spelling; missing or unparseable values give false |
| DebugServiceGo.ResetHandler | debug-service-go/main.go:505-513 | status 200 always; `Connection: close` and "Connection will be reset" iff `do` is a true spelling, otherwise no header and the JSON "Reset not performed" message |
| DebugServiceGo.ConvertHeaders | debug-service-go/main.go:114-122 | the result holds exactly the keys with a non-empty value list, each mapped to the first value of its list |
| DebugServiceGo.FlattenedAgreesWithGet | debug-service-go/main.go:114-121 | a flattened header map answers every lookup the way Values.Get does |
| DebugServiceGo.StatusRecorder.constructor | debug-service-go/main.go:76-79 | the wrapper starts with status 200 and no forwarded calls |
| DebugServiceGo.StatusRecorder.WriteHeader | debug-service-go/main.go:109-112 | records the code, forwards it, and keeps the invariant that the status is 200 before any call and the latest code after |
| DebugServiceGo.SleepSeconds | debug-service-go/main.go:211-215 | no sleep without the `seconds` parameter; otherwise the int Atoi returns beside its discarded error, which is the parsed number when it parses |
| DebugServiceGo.DebugHandler | debug-service-go/main.go:205-231 | 405 for non-POST; otherwise the request reported back, with status 200 when `status_code` is absent and otherwise the int Atoi returns beside its discarded error (the parsed code when it parses) |
| DebugServiceGo.LogHandler | debug-service-go/main.go:233-257 | 405 and no log entry for non-POST; otherwise an entry at the dispatched level and `message`/`level` echoed unchanged |
| Logging.LevelFor | debug-service/main.py:95-102 | "info", "warning" and "error" select their own level, and every other string selects debug |
| DebugServiceGo.ProxyHandler | debug-service-go/main.go:259-307 | 405 for non-POST before any outbound work; the error of a failed step becomes a 400; success is a 200 with a JSON content type |
| DebugServiceGo.CustomHeadersHandler | debug-service-go/main.go:309-324 | 405 for non-POST; an undecodable body is a 400; otherwise the decoded pairs are exactly the response headers |
| DebugServiceGo.StressHandler | debug-service-go/main.go:451-503 | 200 iff the percentage parses and lies in 0..100 and the duration parses and is non-negative; the percentage is checked first, each failure is a 400 with its own message, and success reports both values |
| DebugServiceGo.StressMessageDeterminesValues | debug-service-go/main.go:474-476 | two success messages for the same resource are equal only when they report the same percentage and duration |
| DebugServiceGo.DebugServer.constructor | debug-service-go/main.go:37-39 | the slot starts empty and `terminating` starts false |
| DebugServiceGo.DebugServer.BeginShutdown | debug-service-go/main.go:175-177 | the signal branch sets `terminating` and leaves the slot alone |
| DebugServiceGo.DebugServer.Readiness | debug-service-go/main.go:197-203 | 503 "Server is shutting down" iff `terminating`, otherwise `{"status":"OK"}` |
| DebugServiceGo.DebugServer.Upload | debug-service-go/main.go:348-376 | non-POST or a form error leave the slot unchanged; otherwise the slot becomes "/tmp/"+name before the file is created, so it changes even when creation or copying fails (500); `terminating` never changes |
| DebugServiceGo.DebugServer.Download | debug-service-go/main.go:378-385 | "No file uploaded" when the slot is empty; otherwise the file in the slot with 200 when it exists, and 404 "404 page not found" when it does not |
| DebugServicePy.Echo | debug-service/main.py:87-91 | HTTP 200 with the two-element array (request body, status_code), defaulting to `{"status":"OK"}` and 200 |
| DebugServicePy.Log | debug-service/main.py:93-103 | the message is logged at the matching level (debug for unrecognised names), and `message` and `level` are returned unchanged |
| DebugServicePy.Stateless | debug-service/main.py:144-148 | `{"status":"OK","headers":{"Connection":"close"}}` as body content, with no Connection header on the response |
| DebugServicePy.DebugApp.constructor | debug-service/main.py:36-37 | nothing is uploaded at start |
| DebugServicePy.DebugApp.Upload | debug-service/main.py:129-135 | the slot becomes "/tmp/"+filename before the write, whether or not the write then raises: the last upload wins |
| DebugServicePy.DebugApp.Download | debug-service/main.py:137-142 | `{"message":"No file uploaded"}` when nothing was uploaded; otherwise the file at the slot's path with 200 when it exists, and a 500 when it does not |
| ResourcesStress.RequestErrors | resources-stress/main.py:12-14 | a request is accepted iff 0 <= percentage <= 100 and duration > 0, with one error per violated bound |
| ResourcesStress.ThreadCount | resources-stress/main.py:44 | at least one thread, and at most max(1, cores) for a percentage of at most 100 |
| ResourcesStress.StressCpu | resources-stress/main.py:42-53 | starts exactly ThreadCount threads and joins every started thread, in start order |
| ResourcesStress.TargetMemory | resources-stress/main.py:57-59 | the whole part of total * percentage / 100, never above the total for percentages of at most 100 |
| ResourcesStress.ChunkPlanShape | resources-stress/main.py:62-73 | the planned chunks add up to the target, each is non-empty and at most 1 MiB, all but the last are exactly 1 MiB, and there are ceil(target / 1 MiB) of them |
| ResourcesStress.AllocateChunks | resources-stress/main.py:66-73 | the amount allocated never exceeds the target and is always the sum of the chunks, each at most 1 MiB; without MemoryError the loop ends with exactly the target in ceil(target / 1 MiB) chunks |
| ResourcesStress.StressMemory | resources-stress/main.py:55-81 | the chunk list is empty at the end whether allocation or sleep raised or not; the peak equals the target unless allocation failed |
| LoadTest.StatusFor | load-test/src/main.rs:5-22 | "200", "400" and "500" select their own code; every other segment selects 404; the message is always the code's reason phrase |
| LoadTest.FromU16 | load-test/src/main.rs:24 | from_u16 accepts exactly the three-digit codes |
| LoadTest.StatusHandler | load-test/src/main.rs:4-26 | the unwrap never fails, and the response has the selected code and the paired message as its body |
| HealthCheck.ServicesArePorts8081To8085 | debug-service-multi/health-check/index.js:5-11 | five services are probed, at localhost ports 8081 to 8085 |
| HealthCheck.ProbeAll | debug-service-multi/health-check/index.js:15-24 | one result per service, in order, named after it, healthy iff its probe resolved |
| HealthCheck.AllHealthyIff | debug-service-multi/health-check/index.js:26 | `every` is true iff every result is healthy |
| HealthCheck.HealthHandler | debug-service-multi/health-check/index.js:13-31 | 200 and "healthy" iff every probe resolved, otherwise 503 and "unhealthy", with every result listed |

## Left out

- Sockets, signals and shutdown: the TCP/UDP echo loops, `signal.Notify`, `server.Shutdown`/`Close` and their timeout. Only the `terminating` flag is modelled.
- Concurrency: goroutines and threads running at the same time. That includes races on the shared upload slot and Python's `stress_both`, which runs the CPU and memory workloads at once.
- Timing and process control: `time.Sleep`/`time.sleep`, the goroutine stress loops, `cpu.Percent`, `runtime.GC`, websocket and SSE loops, and `os.Exit`/`os._exit`.
- Floating point: percentages are exact reals, so `int(...)` of a float product is the floor of the exact product. The per-thread work/sleep ratio, the float formatting of the Python stress replies, `/system-info` rounding and logged latency are not modelled.
- DebugServiceGo.StressHandler: does not model the Go memory goroutine's `v.Total * uint64(memoryPercent) / 100`, or its possible 64-bit wrap-around, because it runs in its own goroutine and does not affect the reply.
- DebugServiceGo.DebugHandler: its `Response` is what the handler writes, not what net/http sends. It does not model that net/http panics on a code outside 100-999. It also does not model that a 1xx code other than 101 goes out as an informational response followed by a final 200. Finally, it does not model that the body is refused with `ErrBodyNotAllowed` for 204 and 304.
- DebugServiceGo.Error and Response headers: only headers the handlers set themselves are modelled. Content-type sniffing, the canonicalisation of header keys and the trailing newline written by the JSON encoder are not.
- DebugServiceGo.ProxyHandler: the JSON encoding of the upstream reply is modelled, but decoding the proxy request and the outbound call are represented only by their result.
- Library work behind the modelled handlers: Go `FormFile` and file copying; Python `shutil.copyfileobj`; request-body decoding and FastAPI's 422 reply to invalid query parameters.
- DebugServiceGo.DebugServer.Download and DebugServicePy.DebugApp.Download: of what `ServeFile` and `FileResponse` do, only a present and a missing file are told apart. Permission errors, directory listings, range requests and content types are not modelled.
- Logging middleware serialisation (the JSON log line) is not modelled. Only the status capture and the header flattening it uses are.
- The Python stress endpoints: the reply they build after the worker thread is joined is not modelled. Note that an exception inside the worker (such as the modelled MemoryError) stays in that thread, so the endpoint's 500 path is not reached by it.
- HealthCheck.HealthHandler: does not model the outer `catch` that answers 500. Every probe error is already caught per service, so nothing the model covers reaches it.
- The other services (the HTTPS web app, the bandwidth test and the multi-language echo servers) have no modelled logic; they are library wrappers.
