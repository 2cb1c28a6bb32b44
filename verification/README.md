# MCP scanner protocol client, modelled in Dafny

This is a model of the client side of `knoxctl`'s MCP scanner. The scanner talks
JSON-RPC 2.0 over HTTP to a Model Context Protocol server. It runs the handshake:
an `initialize` call, then the `notifications/initialized` notification. It then
lists the server's tools, prompts and resources, and keeps each record's name and
description, plus the URI for resources.

The model is functional. An immutable scanner is threaded through pure functions.
It holds:

- the options;
- the session: the request counter and the `Mcp-Session-Id` value;
- a log of every POST sent, together with what came back.

The network is a script. The k-th POST receives the k-th scripted exchange: no
reply at all, or a status, a session header and a body that may fail to read.
URL parsing and JSON decoding are functions supplied in an environment record
(`Types.Env`). The model depends only on whether they succeed and on what they
return.

Modules and files:

- `wrappers.dfy`: `Option`, `Result` and `Outcome`.
- `gostrings.dfy`: the Go `strings` functions the scanner uses. These are
  `TrimSpace` with Go's white-space set, `HasPrefix`, `TrimPrefix`, and `Split`
  on one character with its inverse `Join`.
- `types.dfy`: the message shapes and the projection to the reported records.
- `sse.dfy`: `parseSSEResponse`, the first-`data: `-line rule.
- `transport.dfy`: the scanner state and `nextRequestID`, `sendRequest` and
  `sendNotification`. It also defines a reference definition of the session and
  id rules over the log (`WellFormed`), which the operations are proved to keep.
- `scanner.dfy`: `New`, `initialize`, the three listings and `Scan`, along with
  the scan's state diagram.
- `scan_properties.dfy`: properties of a whole scan. These cover when it can
  fail, failure isolation between categories, the request sequence and ids, and
  the session rule along the log.
- `scenarios.dfy`: end-to-end scans against scripted servers. The scenarios are
  an echo server, an invalid URL, a status-500 handshake and a session id that
  changes mid-scan.

Points where the code behaves in ways that are easy to misread, all of which the
model follows:

- A response with neither `result` nor `error` is not rejected. `initialize`
  accepts it. A listing passes JSON `null` to the decoder (`Scanning.Listing`).
- `sendRequest` fails on every status except exactly 200. Other 2xx codes fail
  too (`Transport.Receive`).
- `sendNotification` never fails because of a status (`Transport.SendNotification`).
- The session id can change more than once. Every status-200 reply to a call with a
  non-empty header overwrites it, so the last writer wins. Replies to the
  notification never set it, and neither do non-200 replies
  (`Transport.CaptureSession`, `Transport.LastWriterWins`).
- The listings run one after another, although a comment in `Scan` calls them
  concurrent.

## Model

| member | source | states |
|---|---|---|
| Types.ProjectionKeepsOnlyDeclaredFields | pkg/mcp/types.go:9-23 | Two upstream records give the same reported record exactly when they agree on name and description, plus uri for resources. An input schema, argument list or MIME type leaves no trace. |
| Sse.FirstDataPayload | pkg/mcp/scanner.go:355-361 | It succeeds iff some line, once trimmed, starts with `data: `. The payload comes from the first such line, and no earlier line is a data line. |
| Sse.ParseSSEResponse | pkg/mcp/scanner.go:353-362 | The body split on line feeds: the result is Ok iff some line, once trimmed, starts with `data: `. It is then the payload of the first such line; otherwise it is the no-data-field error. |
| Sse.FirstLineDataWins | pkg/mcp/scanner.go:353-358 | When the body's first line is a data line, its payload is the result, whatever follows. |
| Sse.NonDataLineSkipped | pkg/mcp/scanner.go:354-359 | A first line that is not a data line is ignored: the result is that of the rest of the body. |
| Sse.FrameRoundTrip | pkg/mcp/scanner.go:353-361 | An `event:` line followed by `data: <payload>` parses back to the payload, for a one-line payload not ending in white space. |
| Sse.MissingSpaceRejected | pkg/mcp/scanner.go:357 | A data line written `data:` without the space is an error, not a payload. |
| Sse.EmptyDataRejected | pkg/mcp/scanner.go:356-361 | A bare `data: ` line is trimmed to `data:` and so is an error too. |
| Transport.NextRequestId | pkg/mcp/scanner.go:346-350 | Returns the current counter and advances it by exactly one. Nothing else changes. |
| Transport.Post | pkg/mcp/scanner.go:259-272 | The request carries the session header iff the stored id is non-empty, and then carries exactly that id. The two fixed headers are always present. |
| Transport.NormalizeBody | pkg/mcp/scanner.go:298-306 | A body not starting with `event:` (untrimmed) is passed on unchanged. Only a body starting with `event:` can fail; when it succeeds, its result is the payload `ParseSSEResponse` finds. |
| Transport.Receive | pkg/mcp/scanner.go:274-308 | The outcome is an error for no reply and for any status other than 200 (with status and body). It is also an error for an unreadable body, the framing error for an event stream without a data line, and a decode error for JSON that does not decode. It is Ok iff the status is 200, the body is read, normalised and decoded, and the value is the decoded response. |
| Transport.CaptureSession | pkg/mcp/scanner.go:285-289 | A status-200 reply with a non-empty session header replaces the stored id with that header; the id changes in no other case. |
| Transport.SendRequest | pkg/mcp/scanner.go:251-309 | Logs one round with the session header in force and takes the next scripted reply. The stored id is replaced only by a 200 reply with a non-empty header, even when the body then fails. The counter is untouched. |
| Transport.SendNotification | pkg/mcp/scanner.go:312-343 | Fails iff the round trip fails, whatever the status. The session is left unchanged. |
| Transport.EventStreamReceivedLikePlainBody | pkg/mcp/scanner.go:299-308 | A one-event stream carrying a JSON payload is received exactly like that payload sent as a plain body. |
| Transport.AppendKeepsWellFormed | pkg/mcp/scanner.go:269-289 | A round sent with the current session header and counter keeps the scanner in line with the session and id rules over its log. This holds when the state is updated as the transport does it: notifications capture nothing and consume no id. |
| Transport.LastWriterWins | pkg/mcp/scanner.go:285-289 | After a round that set the session, and until the next one that does, the captured id is that round's header. |
| Transport.NoSessionUntilSet | pkg/mcp/scanner.go:268-272 | Before any round set the session, no session header is held. |
| Scanning.New | pkg/mcp/scanner.go:29-37 | The counter starts at 1, there is no session, nothing has been sent, and the state is well formed. |
| Scanning.Initialize | pkg/mcp/scanner.go:71-109 | Passes iff the call's response is Ok and has no error object, so a response with neither result nor error passes. On failure the error is the request error or the error object's code and message. Only on success is the notification sent, carrying no id, and its own failure is ignored. Exactly one id is consumed. |
| Scanning.Project | pkg/mcp/scanner.go:145-151 | One projected record per upstream record, in the same order. |
| Scanning.Listing | pkg/mcp/scanner.go:121-151 | The listing is empty when the call fails, when the response has an error object, or when the result does not decode (an absent result is decoded as `null`). Otherwise it is the projection of every decoded record. |
| Scanning.Enumerate | pkg/mcp/scanner.go:112-155 | One listing call. It logs one request with the next id and the given method, consumes one id, and its records are the `Listing` of its own reply. |
| Scanning.ListTools | pkg/mcp/scanner.go:112-155 | The tools are what the `tools/list` reply alone yields. |
| Scanning.ListPrompts | pkg/mcp/scanner.go:158-201 | The prompts are what the `prompts/list` reply alone yields. |
| Scanning.ListResources | pkg/mcp/scanner.go:204-248 | The resources (with uri) are what the `resources/list` reply alone yields. |
| Scanning.ListAll | pkg/mcp/scanner.go:60-62 | The three listings add exactly three rounds to the log. Each category's records come from the reply at its own position: tools, then prompts, then resources. |
| Scanning.RunsOfTheDiagram | pkg/mcp/scanner.go:47-67 | The diagram has exactly two runs. One goes Idle, Handshaking, tools, prompts, resources, Done; the other goes Idle, Handshaking, Failed. |
| Scanning.Scan | pkg/mcp/scanner.go:47-50 | The scan fails with an invalid-URL error iff the URL does not parse. |
| ScanProperties.ScanFailsOnlyInHandshake | pkg/mcp/scanner.go:40-68 | An unparsable URL fails the scan before anything is sent. Otherwise the scan fails iff `initialize` fails, with its error, and then nothing more is sent. |
| ScanProperties.ScanListsEachCategoryFromItsOwnReply | pkg/mcp/scanner.go:53-67 | After a successful handshake the scan succeeds. It sends exactly `tools/list`, `prompts/list`, `resources/list` in that order, and each category comes from its own reply. |
| ScanProperties.ScanFollowsDiagram | pkg/mcp/scanner.go:47-67 | The phases read off the requests a scan actually sent form a run of the diagram. A failed scan sent no listing request and went Idle, Handshaking, Failed. A successful one sent `tools/list`, `prompts/list`, `resources/list` once each, in that order, and ends in Done. |
| ScanProperties.SkippedHandshakeIsNoRun | pkg/mcp/scanner.go:52-61 | A scan whose first request is not `initialize` is not a run of the diagram. The phases cannot go from Idle to a listing without the handshake. |
| ScanProperties.ToolsReplyDoesNotAffectOtherCategories | pkg/mcp/scanner.go:121-130 | Two scans whose scripts differ only in the `tools/list` reply report the same prompts and resources. The tools reply may be anything, a failure included. |
| ScanProperties.FailedListingIsEmpty | pkg/mcp/scanner.go:121-130 | A category whose call fails or returns an error object reports nothing, and the scan still succeeds. |
| ScanProperties.FreshScanRequestSequence | pkg/mcp/scanner.go:83-117 | A successful fresh scan sends exactly five requests: `initialize` with id 1, the notification without an id, then the three listings with ids 2, 3, 4. |
| ScanProperties.ListAllRequests | pkg/mcp/scanner.go:115-119 | The listing requests carry the next three ids and the three methods in order, and the counter ends three higher. |
| ScanProperties.InitializeKeepsWellFormed | pkg/mcp/scanner.go:81-106 | The handshake keeps the session and id rules over the log. |
| ScanProperties.EnumerateKeepsWellFormed | pkg/mcp/scanner.go:115-125 | A listing call keeps the session and id rules over the log. |
| ScanProperties.ScanKeepsWellFormed | pkg/mcp/scanner.go:40-68 | A whole scan keeps the session and id rules over the log. Every request carries the latest captured id, or none before the first capture. Calls are numbered from 1 and the notification consumes no id. |
| ScanProperties.ScanAnswersInOrder | pkg/mcp/scanner.go:40-68 | Every request of a scan is paired with the scripted reply of its position. |
| Scenarios.EchoScenario | pkg/mcp/scanner.go:40-248 | Against a server with one tool, a `prompts/list` error and no resources, the scan reports exactly that tool's name and description, no prompts and no resources. |
| Scenarios.InvalidUrlScenario | pkg/mcp/scanner.go:47-50 | A URL that does not parse fails the scan with the invalid-URL error, and no request is sent. |
| Scenarios.InitializeStatus500Scenario | pkg/mcp/scanner.go:89-91 | A status-500 `initialize` reply fails the scan with a handshake error carrying the status and body. Only that one request is sent. |
| Scenarios.SessionHeaderScenario | pkg/mcp/scanner.go:269-289 | The session header follows the server. There is none on `initialize`, then the first id until a listing reply changes it, then the new id. The notification's reply changes nothing. |
| GoStrings.SplitJoinRoundTrip | pkg/mcp/scanner.go:354 | Splitting on a separator inverts joining pieces that do not contain it. |
| GoStrings.TrimSpaceIsInnerSlice | pkg/mcp/scanner.go:356 | Trimming removes white space from both ends only, leaving a contiguous slice. |

## Left out

- HTTP itself is not modelled: `http.Client`, building the request and the 30-second deadline (pkg/mcp/scanner.go:32-33, 41). A request that cannot be built, a transport error and an expired deadline are all the scripted `NoReply`.
- `url.Parse` and `String()`, and every `json.Unmarshal`, are environment functions. Their success and their result are inputs.
- `json.Marshal` of the request envelopes and of a response's result is not modelled. It cannot fail for these values. A listing's `RawJson` result stands for Go's re-encoding of the value `json.Unmarshal` decoded. That re-encoding is not the server's text: object keys come out sorted, white space is dropped and numbers become float64. It is `null` when the result is absent or JSON `null`. The model does not look inside it; the decoders in `Env` receive it as given.
- Transport.Receive: a reply body is all or nothing (`body = None` when reading it failed). When the body of a non-200 reply fails part-way, Go's error message carries the bytes read before the failure. The model's message carries the empty text instead.
- `displayResults`, `analyzeForInjection` and `displayAnalysisResult` (pkg/mcp/scanner.go:365-503) are left out, as is the display call at the end of `Scan`. They are console output and a call to a separate analysis service.
- Logging is left out: warnings have no observable effect.
- The command-line entry point is not part of this model.
- Transport.NextRequestId: does not model the wrap-around of Go's 64-bit `int`, which a scan of four calls cannot reach.
- GoStrings.Split: models splitting on a one-character separator only, which is all the scanner uses.
- Strings are sequences of code points. Invalid UTF-8 in a body, which Go's `TrimSpace` would decode as replacement characters, is not modelled.
