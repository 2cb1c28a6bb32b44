/** End-to-end scans against a scripted server. Reply bodies are left
    symbolic: what matters is what the JSON library decodes them to, which
    each scenario states as a hypothesis about the environment. */
module Scenarios {
  import opened Wrappers
  import opened Types
  import opened Transport
  import opened Scanning
  import opened ScanProperties

  /** A body that is plain JSON (it opens with a brace) is not an event stream. */
  predicate PlainJson(body: string) {
    body != [] && body[0] == '{'
  }

  lemma PlainJsonIsNotNormalized(body: string)
    requires PlainJson(body)
    ensures NormalizeBody(body) == Ok(body)
  {
    assert body[0] != Sse.EventPrefix[0];
  }

  /** A 200 reply with a plain JSON body is received as whatever that body
      decodes to. */
  lemma PlainReplyReceived(env: Env, header: string, body: string, response: JsonRpcResponse)
    requires PlainJson(body)
    requires env.decodeResponse(body) == Some(response)
    ensures Receive(env, Reply(StatusOK, header, Some(body))) == Ok(response)
  {
    PlainJsonIsNotNormalized(body);
  }

  /** An `initialize` reply of status 200 whose plain JSON body decodes to a
      response without an error object completes the handshake. */
  lemma HandshakeAccepted(env: Env, url: string, header: string, initBody: string, script: seq<Exchange>)
    requires PlainJson(initBody)
    requires env.decodeResponse(initBody).Some? && env.decodeResponse(initBody).value.error.None?
    requires script != [] && script[0] == Reply(StatusOK, header, Some(initBody))
    ensures Initialize(New(ScanOptions(url)), env, url, script).1.Pass?
  {
    assert ReplyAt(script, 0) == script[0];
    PlainReplyReceived(env, header, initBody, env.decodeResponse(initBody).value);
  }

  /** A server that completes the handshake, offers one tool (an echo
      tool, say), answers `prompts/list` with a JSON-RPC error (method not
      found, say) and has no resources: the four reply bodies and what the
      JSON library makes of them. */
  datatype EchoServer = EchoServer(
    initBody: string, toolsBody: string, promptsBody: string, resourcesBody: string,
    initResult: RawJson, toolsResult: RawJson, resourcesResult: RawJson,
    tool: Tool, promptsError: JsonRpcError)

  /** `env` decodes the server's bodies as described, and `script` holds its
      five replies: the four bodies with status 200, and a 202 without a
      body for the notification. */
  predicate Serves(env: Env, server: EchoServer, script: seq<Exchange>) {
    && PlainJson(server.initBody) && PlainJson(server.toolsBody)
    && PlainJson(server.promptsBody) && PlainJson(server.resourcesBody)
    && env.decodeResponse(server.initBody) == Some(JsonRpcResponse(JsonRpcVersion, None, Some(server.initResult), None))
    && env.decodeResponse(server.toolsBody) == Some(JsonRpcResponse(JsonRpcVersion, None, Some(server.toolsResult), None))
    && env.decodeTools(server.toolsResult) == Some(ListToolsResult([server.tool]))
    && env.decodeResponse(server.promptsBody) == Some(JsonRpcResponse(JsonRpcVersion, None, None, Some(server.promptsError)))
    && env.decodeResponse(server.resourcesBody) == Some(JsonRpcResponse(JsonRpcVersion, None, Some(server.resourcesResult), None))
    && env.decodeResources(server.resourcesResult) == Some(ListResourcesResult([]))
    && |script| == 5
    && script[0] == Reply(StatusOK, "", Some(server.initBody))
    && script[1] == Reply(202, "", None)
    && script[2] == Reply(StatusOK, "", Some(server.toolsBody))
    && script[3] == Reply(StatusOK, "", Some(server.promptsBody))
    && script[4] == Reply(StatusOK, "", Some(server.resourcesBody))
  }

  /** What the echo server's replies yield, call by call. */
  lemma EchoReplies(env: Env, url: string, server: EchoServer, script: seq<Exchange>)
    requires Serves(env, server, script)
    ensures Initialize(New(ScanOptions(url)), env, url, script).1.Pass?
    ensures ToolsFrom(env, ReplyAt(script, 2)) == [ToolInfo(server.tool.name, server.tool.description)]
    ensures PromptsFrom(env, ReplyAt(script, 3)) == []
    ensures ResourcesFrom(env, ReplyAt(script, 4)) == []
  {
    HandshakeAccepted(env, url, "", server.initBody, script);
    assert ReplyAt(script, 2) == script[2] && ReplyAt(script, 3) == script[3] && ReplyAt(script, 4) == script[4];
    OneTool(env, server.toolsBody, server.toolsResult, server.tool);
    ErrorObjectListsNothing(env, server.promptsBody, server.promptsError);
    EmptyResourceList(env, server.resourcesBody, server.resourcesResult);
  }

  /** Against the echo server the scan succeeds with exactly the one tool's
      name and description, no prompts and no resources. */
  lemma EchoScenario(env: Env, url: string, server: EchoServer, script: seq<Exchange>)
    requires env.parseUrl(url) == Some(url)
    requires Serves(env, server, script)
    ensures Scan(New(ScanOptions(url)), env, script).outcome
         == Ok(ScanResult([ToolInfo(server.tool.name, server.tool.description)], [], []))
  {
    EchoReplies(env, url, server, script);
    ScanListsEachCategoryFromItsOwnReply(New(ScanOptions(url)), env, script);
  }

  /** A `tools/list` reply whose result decodes to one tool yields that
      tool's name and description. */
  lemma OneTool(env: Env, body: string, result: RawJson, tool: Tool)
    requires PlainJson(body)
    requires env.decodeResponse(body) == Some(JsonRpcResponse(JsonRpcVersion, None, Some(result), None))
    requires env.decodeTools(result) == Some(ListToolsResult([tool]))
    ensures ToolsFrom(env, Reply(StatusOK, "", Some(body))) == [ToolInfo(tool.name, tool.description)]
  {
    PlainReplyReceived(env, "", body, JsonRpcResponse(JsonRpcVersion, None, Some(result), None));
    var tools := ToolsFrom(env, Reply(StatusOK, "", Some(body)));
    assert |tools| == 1 && tools[0] == ToToolInfo(tool);
  }

  /** A `prompts/list` reply carrying an error object yields no prompts. */
  lemma ErrorObjectListsNothing(env: Env, body: string, error: JsonRpcError)
    requires PlainJson(body)
    requires env.decodeResponse(body) == Some(JsonRpcResponse(JsonRpcVersion, None, None, Some(error)))
    ensures PromptsFrom(env, Reply(StatusOK, "", Some(body))) == []
  {
    PlainReplyReceived(env, "", body, JsonRpcResponse(JsonRpcVersion, None, None, Some(error)));
  }

  /** A `resources/list` reply whose result decodes to an empty list yields
      no resources. */
  lemma EmptyResourceList(env: Env, body: string, result: RawJson)
    requires PlainJson(body)
    requires env.decodeResponse(body) == Some(JsonRpcResponse(JsonRpcVersion, None, Some(result), None))
    requires env.decodeResources(result) == Some(ListResourcesResult([]))
    ensures ResourcesFrom(env, Reply(StatusOK, "", Some(body))) == []
  {
    PlainReplyReceived(env, "", body, JsonRpcResponse(JsonRpcVersion, None, Some(result), None));
  }

  /** A URL that does not parse fails the scan before any request is sent. */
  lemma InvalidUrlScenario(env: Env, url: string, script: seq<Exchange>)
    requires env.parseUrl(url).None?
    ensures Scan(New(ScanOptions(url)), env, script).outcome == Err(InvalidUrl)
    ensures Scan(New(ScanOptions(url)), env, script).scanner.log == []
  {
    ScanFailsOnlyInHandshake(New(ScanOptions(url)), env, script);
  }

  /** `initialize` answered with status 500 fails the scan with a handshake
      error carrying the status and body, and no other request is sent. */
  lemma InitializeStatus500Scenario(env: Env, url: string, body: string, rest: seq<Exchange>)
    requires env.parseUrl(url) == Some(url)
    ensures var r := Scan(New(ScanOptions(url)), env, [Reply(500, "", Some(body))] + rest);
      && r.outcome == Err(InitializeFailed(InitRequestFailed(HttpStatus(500, body))))
      && |r.scanner.log| == 1
      && r.scanner.log[0].request.body.methodName == InitializeMethod
  {
    var script := [Reply(500, "", Some(body))] + rest;
    assert ReplyAt(script, 0) == Reply(500, "", Some(body));
    ScanFailsOnlyInHandshake(New(ScanOptions(url)), env, script);
  }

  /** The session header follows the server: none on `initialize`, the id
      from the `initialize` reply on the notification and on `tools/list`,
      and the new id from the `tools/list` reply on the two later calls. The
      notification's reply, a 200 whose header differs and which would set
      the session had it answered a call, changes nothing. */
  lemma SessionHeaderScenario(env: Env, url: string, initBody: string, script: seq<Exchange>)
    requires env.parseUrl(url) == Some(url)
    requires PlainJson(initBody)
    requires env.decodeResponse(initBody).Some? && env.decodeResponse(initBody).value.error.None?
    requires |script| == 5
    requires script[0] == Reply(StatusOK, "s1", Some(initBody))
    requires script[1] == Reply(StatusOK, "ignored", None)
    requires script[2].Reply? && script[2].status == StatusOK && script[2].sessionHeader == "s2"
    requires script[3].Reply? && script[3].sessionHeader == ""
    ensures var log := Scan(New(ScanOptions(url)), env, script).scanner.log;
      && |log| == 5
      && log[0].request.sessionId == None
      && log[1].request.sessionId == Some("s1")
      && log[2].request.sessionId == Some("s1")
      && log[3].request.sessionId == Some("s2")
      && log[4].request.sessionId == Some("s2")
  {
    var sc := New(ScanOptions(url));
    HandshakeAccepted(env, url, "s1", initBody, script);
    ScanListsEachCategoryFromItsOwnReply(sc, env, script);
    FreshScanRequestSequence(ScanOptions(url), env, script);
    ScanKeepsWellFormed(sc, env, script);
    ScanAnswersInOrder(sc, env, script);
    SessionHeadersAlongLog(Scan(sc, env, script).scanner, script);
  }

  lemma SessionHeadersAlongLog(sc: Scanner, script: seq<Exchange>)
    requires WellFormed(sc) && AnsweredInOrder(sc.log, script)
    requires |sc.log| == 5 && |script| == 5
    requires sc.log[1].request.body.IsNotification()
    requires !sc.log[0].request.body.IsNotification() && !sc.log[2].request.body.IsNotification()
    requires !sc.log[3].request.body.IsNotification()
    requires script[0].Reply? && script[0].status == StatusOK && script[0].sessionHeader == "s1"
    requires script[2].Reply? && script[2].status == StatusOK && script[2].sessionHeader == "s2"
    requires script[3].Reply? && script[3].sessionHeader == ""
    ensures var log := sc.log;
      && log[0].request.sessionId == None
      && log[1].request.sessionId == Some("s1")
      && log[2].request.sessionId == Some("s1")
      && log[3].request.sessionId == Some("s2")
      && log[4].request.sessionId == Some("s2")
  {
    var log := sc.log;
    assert RoundFollowsRules(log, 0) && RoundFollowsRules(log, 1) && RoundFollowsRules(log, 2);
    assert RoundFollowsRules(log, 3) && RoundFollowsRules(log, 4);
    assert log[0].reply == ReplyAt(script, 0) && log[1].reply == ReplyAt(script, 1);
    assert log[2].reply == ReplyAt(script, 2) && log[3].reply == ReplyAt(script, 3);
    NoSessionUntilSet(log, 0);
    LastWriterWins(log, 0, 1);
    LastWriterWins(log, 0, 2);
    LastWriterWins(log, 2, 3);
    LastWriterWins(log, 2, 4);
  }
}
