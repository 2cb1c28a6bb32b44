/** The scanner's HTTP transport: one POST per JSON-RPC call or notification,
    the `Mcp-Session-Id` header, the JSON or event-stream reply body, and the
    per-scanner state (request counter and session id) they share.

    The network is a script: the k-th POST the scanner attempts receives the
    k-th scripted exchange, and every attempt is recorded in the scanner's
    log together with what came back. */
module Transport {
  import opened Wrappers
  import opened GoStrings
  import opened Types
  import opened Sse

  const SessionHeaderName := "Mcp-Session-Id"
  const ContentType := "application/json"
  const AcceptTypes := "application/json, text/event-stream"
  const StatusOK := 200

  /** The mutable part of a scanner: the next request id and the session id
      the server handed out ("" while there is none). */
  datatype Session = Session(requestId: int, sessionId: string)

  /** An outgoing POST: target, the two fixed headers, the optional session
      header and the JSON-RPC envelope as body. */
  datatype HttpRequest = HttpRequest(
    url: string,
    contentType: string,
    accept: string,
    sessionId: Option<string>,
    body: JsonRpcRequest)

  /** What one POST attempt came back with. `NoReply` covers a request that
      could not be built and a round trip that failed or ran past the
      deadline. A reply's body is `None` when reading it failed; whatever
      part of it was read before the failure is not kept. */
  datatype Exchange =
    | NoReply
    | Reply(status: int, sessionHeader: string, body: Option<string>)

  datatype Round = Round(request: HttpRequest, reply: Exchange)

  /** A scanner: its options, its session state, and the rounds so far. */
  datatype Scanner = Scanner(options: ScanOptions, session: Session, log: seq<Round>)

  datatype RequestError =
    | TransportFailed
    | HttpStatus(status: int, body: string)
    | BodyUnreadable
    | SseInvalid(cause: SseError)
    | DecodeFailed

  /** The scripted reply to the k-th POST; past the end of the script the
      server is unreachable. */
  function ReplyAt(script: seq<Exchange>, k: nat): Exchange {
    if k < |script| then script[k] else NoReply
  }

  /** `nextRequestID`: hands out the current counter and advances it by one. */
  function NextRequestId(sc: Scanner): (r: (int, Scanner))
    ensures r.0 == sc.session.requestId
    ensures r.1.session.requestId == r.0 + 1
    ensures r.1.session.sessionId == sc.session.sessionId
    ensures r.1.options == sc.options && r.1.log == sc.log
  {
    (sc.session.requestId, sc.(session := sc.session.(requestId := sc.session.requestId + 1)))
  }

  /** The session header an outgoing request carries: the stored id, unless
      it is empty. */
  function SessionHeaderFor(sessionId: string): Option<string> {
    if sessionId != "" then Some(sessionId) else None
  }

  /** Builds the POST for an envelope, as both `sendRequest` and
      `sendNotification` do. */
  function Post(session: Session, url: string, body: JsonRpcRequest): (r: HttpRequest)
    ensures r.sessionId.Some? <==> session.sessionId != ""
    ensures r.sessionId.Some? ==> r.sessionId.value == session.sessionId
    ensures r.url == url && r.body == body
    ensures r.contentType == ContentType && r.accept == AcceptTypes
  {
    HttpRequest(url, ContentType, AcceptTypes, SessionHeaderFor(session.sessionId), body)
  }

  /** The session id after `sendRequest` sees `reply`: a status-200 reply with
      a non-empty header replaces it (last writer wins); anything else keeps it. */
  function CaptureSession(current: string, reply: Exchange): (r: string)
    ensures reply.Reply? && reply.status == StatusOK && reply.sessionHeader != "" ==> r == reply.sessionHeader
    ensures r != current ==> reply.Reply? && reply.status == StatusOK && reply.sessionHeader != "" && r == reply.sessionHeader
  {
    if reply.Reply? && reply.status == StatusOK && reply.sessionHeader != "" then reply.sessionHeader
    else current
  }

  /** A body that starts with `event:` is an event stream and yields the
      payload of its first data line; any other body is JSON already. */
  function NormalizeBody(body: string): (r: Result<string, SseError>)
    ensures !HasPrefix(body, EventPrefix) ==> r == Ok(body)
    ensures r.Err? ==> HasPrefix(body, EventPrefix)
    ensures r.Ok? && HasPrefix(body, EventPrefix) ==> ParseSSEResponse(body) == Ok(r.value)
  {
    if HasPrefix(body, EventPrefix) then ParseSSEResponse(body) else Ok(body)
  }

  /** The response `sendRequest` makes of a reply. It depends on the reply
      alone: a round trip that failed, any status but exactly 200 (other 2xx
      codes included), an unreadable body, an event stream without a data
      line and undecodable JSON are each an error. */
  function Receive(env: Env, reply: Exchange): (r: Result<JsonRpcResponse, RequestError>)
    ensures reply.NoReply? ==> r == Err(TransportFailed)
    ensures reply.Reply? && reply.status != StatusOK ==> r == Err(HttpStatus(reply.status, reply.body.GetOr("")))
    ensures reply.Reply? && reply.status == StatusOK && reply.body.None? ==> r == Err(BodyUnreadable)
    ensures reply.Reply? && reply.status == StatusOK && reply.body.Some? && NormalizeBody(reply.body.value).Err?
            ==> r == Err(SseInvalid(NoDataField))
    ensures reply.Reply? && reply.status == StatusOK && reply.body.Some? && NormalizeBody(reply.body.value).Ok?
            && env.decodeResponse(NormalizeBody(reply.body.value).value).None?
            ==> r == Err(DecodeFailed)
    ensures r.Ok? <==>
      && reply.Reply? && reply.status == StatusOK && reply.body.Some?
      && NormalizeBody(reply.body.value).Ok?
      && env.decodeResponse(NormalizeBody(reply.body.value).value).Some?
    ensures r.Ok? ==> Some(r.value) == env.decodeResponse(NormalizeBody(reply.body.value).value)
  {
    match reply
    case NoReply => Err(TransportFailed)
    case Reply(status, _, body) =>
      if status != StatusOK then Err(HttpStatus(status, body.GetOr("")))
      else if body.None? then Err(BodyUnreadable)
      else match NormalizeBody(body.value)
        case Err(e) => Err(SseInvalid(e))
        case Ok(json) =>
          match env.decodeResponse(json)
          case None => Err(DecodeFailed)
          case Some(response) => Ok(response)
  }

  /** `sendRequest`: posts `request` with the current session header, takes
      the next scripted reply, captures its session header (before the body
      is read, so even a reply whose body then fails sets it) and reports
      what the reply decodes to. The counter is left alone. */
  function SendRequest(sc: Scanner, env: Env, serverUrl: string, request: JsonRpcRequest, script: seq<Exchange>)
    : (r: (Scanner, Result<JsonRpcResponse, RequestError>))
    ensures r.0.log == sc.log + [Round(Post(sc.session, serverUrl, request), ReplyAt(script, |sc.log|))]
    ensures r.0.options == sc.options
    ensures r.0.session.requestId == sc.session.requestId
    ensures r.0.session.sessionId == CaptureSession(sc.session.sessionId, ReplyAt(script, |sc.log|))
    ensures r.1 == Receive(env, ReplyAt(script, |sc.log|))
  {
    var reply := ReplyAt(script, |sc.log|);
    var round := Round(Post(sc.session, serverUrl, request), reply);
    var session := sc.session.(sessionId := CaptureSession(sc.session.sessionId, reply));
    (sc.(session := session, log := sc.log + [round]), Receive(env, reply))
  }

  /** `sendNotification`: posts with the current session header and fails
      only when the round trip itself failed; the reply's status, headers and
      body are ignored and the session is left as it was. */
  function SendNotification(sc: Scanner, serverUrl: string, notification: JsonRpcRequest, script: seq<Exchange>)
    : (r: (Scanner, Outcome<RequestError>))
    ensures r.0.log == sc.log + [Round(Post(sc.session, serverUrl, notification), ReplyAt(script, |sc.log|))]
    ensures r.0.options == sc.options && r.0.session == sc.session
    ensures r.1.Fail? <==> ReplyAt(script, |sc.log|).NoReply?
    ensures r.1.Fail? ==> r.1.error == TransportFailed
  {
    var reply := ReplyAt(script, |sc.log|);
    var sc' := sc.(log := sc.log + [Round(Post(sc.session, serverUrl, notification), reply)]);
    if reply.NoReply? then (sc', Fail(TransportFailed)) else (sc', Pass)
  }

  /** An event stream carrying one JSON payload is received exactly like the
      same payload sent as a plain body. */
  lemma EventStreamReceivedLikePlainBody(env: Env, header: string, event: string, payload: string)
    requires '\n' !in event && '\n' !in payload
    requires payload != [] && !IsSpace(payload[|payload| - 1])
    requires !HasPrefix(payload, EventPrefix)
    ensures Receive(env, Reply(StatusOK, header, Some(Frame(event, payload))))
         == Receive(env, Reply(StatusOK, header, Some(payload)))
  {
    FrameRoundTrip(event, payload);
  }

  // ---- The session rule, as a reference over the log ----

  /** A round that sets the session: a call (it has an id) answered with
      status 200 and a non-empty session header. */
  predicate SetsSession(round: Round) {
    && !round.request.body.IsNotification()
    && round.reply.Reply? && round.reply.status == StatusOK && round.reply.sessionHeader != ""
  }

  /** The session id a scanner holds after the given rounds, starting from
      none: the header of the last round that set it. */
  function CapturedSession(log: seq<Round>): string {
    if |log| == 0 then ""
    else if SetsSession(log[|log| - 1]) then log[|log| - 1].reply.sessionHeader
    else CapturedSession(log[..|log| - 1])
  }

  /** The number of calls (requests with an id) among the given rounds. */
  function CallCount(log: seq<Round>): nat {
    if |log| == 0 then 0
    else CallCount(log[..|log| - 1]) + (if log[|log| - 1].request.body.IsNotification() then 0 else 1)
  }

  /** Round `k` of a log went out as the rules demand: with the session
      header captured by the earlier rounds, and, if it is a call, with the
      id that counts the earlier calls from 1. */
  predicate RoundFollowsRules(log: seq<Round>, k: nat)
    requires k < |log|
  {
    && log[k].request.sessionId == SessionHeaderFor(CapturedSession(log[..k]))
    && (log[k].request.body.id.Some? ==> log[k].request.body.id.value == 1 + CallCount(log[..k]))
  }

  /** A scanner whose state and log agree with the rules: its stored session
      id and counter are those its log implies, and every round in its log
      followed the rules. */
  predicate WellFormed(sc: Scanner) {
    && sc.session.sessionId == CapturedSession(sc.log)
    && sc.session.requestId == 1 + CallCount(sc.log)
    && forall k :: 0 <= k < |sc.log| ==> RoundFollowsRules(sc.log, k)
  }

  /** Appending one round that follows the rules, and updating the state the
      way the transport does, keeps a scanner well formed. */
  lemma AppendKeepsWellFormed(sc: Scanner, round: Round, after: Scanner)
    requires WellFormed(sc)
    requires round.request.sessionId == SessionHeaderFor(sc.session.sessionId)
    requires round.request.body.id.Some? ==> round.request.body.id.value == sc.session.requestId
    requires after.log == sc.log + [round]
    requires after.session.sessionId ==
      (if round.request.body.IsNotification() then sc.session.sessionId
       else CaptureSession(sc.session.sessionId, round.reply))
    requires after.session.requestId ==
      sc.session.requestId + (if round.request.body.IsNotification() then 0 else 1)
    ensures WellFormed(after)
  {
    AppendUpdatesSessionAndCount(sc.log, round);
    assert after.session.sessionId == CapturedSession(after.log) by {
      if !round.request.body.IsNotification() {
        assert CaptureSession(sc.session.sessionId, round.reply)
            == if SetsSession(round) then round.reply.sessionHeader else sc.session.sessionId;
      }
    }
    assert after.session.requestId == 1 + CallCount(after.log);
    LastRoundFollowsRules(sc, round);
    AllRoundsFollowRules(sc.log, round);
  }

  lemma AllRoundsFollowRules(log: seq<Round>, round: Round)
    requires forall k :: 0 <= k < |log| ==> RoundFollowsRules(log, k)
    requires RoundFollowsRules(log + [round], |log|)
    ensures forall k :: 0 <= k < |log + [round]| ==> RoundFollowsRules(log + [round], k)
  {
    forall k | 0 <= k < |log|
      ensures RoundFollowsRules(log + [round], k)
    {
      EarlierRoundsFollowRules(log, round, k);
    }
  }

  /** A round sent with the scanner's current state follows the rules. */
  lemma LastRoundFollowsRules(sc: Scanner, round: Round)
    requires WellFormed(sc)
    requires round.request.sessionId == SessionHeaderFor(sc.session.sessionId)
    requires round.request.body.id.Some? ==> round.request.body.id.value == sc.session.requestId
    ensures RoundFollowsRules(sc.log + [round], |sc.log|)
  {
    assert (sc.log + [round])[..|sc.log|] == sc.log;
  }

  /** The captured session and the call count after one more round. */
  lemma AppendUpdatesSessionAndCount(log: seq<Round>, round: Round)
    ensures CapturedSession(log + [round])
         == if SetsSession(round) then round.reply.sessionHeader else CapturedSession(log)
    ensures CallCount(log + [round]) == CallCount(log) + (if round.request.body.IsNotification() then 0 else 1)
  {
    assert (log + [round])[..|log|] == log;
  }

  /** Appending a round does not change how the earlier rounds are judged. */
  lemma EarlierRoundsFollowRules(log: seq<Round>, round: Round, k: nat)
    requires k < |log| && RoundFollowsRules(log, k)
    ensures RoundFollowsRules(log + [round], k)
  {
    assert (log + [round])[..k] == log[..k];
  }

  /** Last writer wins: after a round that set the session, and until the
      next one that does, the captured session id is that round's header. */
  lemma {:induction false} LastWriterWins(log: seq<Round>, j: nat, k: nat)
    requires j < k <= |log|
    requires SetsSession(log[j])
    requires forall i :: j < i < k ==> !SetsSession(log[i])
    ensures CapturedSession(log[..k]) == log[j].reply.sessionHeader
  {
    var prefix := log[..k];
    assert prefix[..k - 1] == log[..k - 1];
    if k - 1 > j {
      assert !SetsSession(prefix[k - 1]);
      LastWriterWins(log, j, k - 1);
    }
  }

  /** Before any round set the session, the scanner holds none. */
  lemma {:induction false} NoSessionUntilSet(log: seq<Round>, k: nat)
    requires k <= |log|
    requires forall i :: 0 <= i < k ==> !SetsSession(log[i])
    ensures CapturedSession(log[..k]) == ""
  {
    if k > 0 {
      var prefix := log[..k];
      assert prefix[..k - 1] == log[..k - 1];
      assert !SetsSession(prefix[k - 1]);
      NoSessionUntilSet(log, k - 1);
    }
  }
}
