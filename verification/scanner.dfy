/** The scan itself: the handshake (`initialize` call, then the
    `notifications/initialized` notification), one listing call per
    capability category with its failures absorbed, and the orchestration
    that runs them in order, following a small state diagram. */
module Scanning {
  import opened Wrappers
  import opened Types
  import opened Transport

  const MCPProtocolVersion := "2025-06-18"
  const ClientName := "knoxctl-mcp-scanner"
  const ClientVersion := "1.0.0"

  const InitializeMethod := "initialize"
  const InitializedMethod := "notifications/initialized"
  const ToolsListMethod := "tools/list"
  const PromptsListMethod := "prompts/list"
  const ResourcesListMethod := "resources/list"

  /** `New`: the counter starts at 1, there is no session yet, nothing has
      been sent. */
  function New(options: ScanOptions): (sc: Scanner)
    ensures sc.options == options && sc.log == []
    ensures sc.session.requestId == 1 && sc.session.sessionId == ""
    ensures WellFormed(sc)
  {
    Scanner(options, Session(1, ""), [])
  }

  function InitializeRequest(id: int): JsonRpcRequest {
    JsonRpcRequest(JsonRpcVersion, Some(id), InitializeMethod,
      Some(InitializeParams(MCPProtocolVersion, ClientCapabilities, Implementation(ClientName, ClientVersion))))
  }

  /** The initialized notification: no id, no parameters. */
  const InitializedNotification := JsonRpcRequest(JsonRpcVersion, None, InitializedMethod, None)

  function ListRequest(id: int, methodName: string): JsonRpcRequest {
    JsonRpcRequest(JsonRpcVersion, Some(id), methodName, None)
  }

  datatype InitError =
    | InitRequestFailed(cause: RequestError)
    | InitRpcError(code: int, message: string)

  /** `initialize`: fails exactly when the call fails or its response holds
      an error object (a response with neither result nor error is accepted).
      Only on success is the initialized notification sent, and its own
      failure is ignored. */
  function Initialize(sc: Scanner, env: Env, serverUrl: string, script: seq<Exchange>)
    : (r: (Scanner, Outcome<InitError>))
    ensures var response := Receive(env, ReplyAt(script, |sc.log|));
      r.1.Pass? <==> response.Ok? && response.value.error.None?
    ensures var response := Receive(env, ReplyAt(script, |sc.log|));
      r.1.Fail? ==>
        r.1.error == if response.Err? then InitRequestFailed(response.error)
                     else InitRpcError(response.value.error.value.code, response.value.error.value.message)
    ensures |r.0.log| == |sc.log| + (if r.1.Pass? then 2 else 1)
    ensures r.0.log[..|sc.log|] == sc.log
    ensures r.0.log[|sc.log|].request == Post(sc.session, serverUrl, InitializeRequest(sc.session.requestId))
    ensures r.1.Pass? ==> r.0.log[|sc.log| + 1].request == Post(r.0.session, serverUrl, InitializedNotification)
    ensures r.0.options == sc.options
    ensures r.0.session.requestId == sc.session.requestId + 1
    ensures r.0.session.sessionId == CaptureSession(sc.session.sessionId, ReplyAt(script, |sc.log|))
  {
    var (id, sc1) := NextRequestId(sc);
    var (sc2, response) := SendRequest(sc1, env, serverUrl, InitializeRequest(id), script);
    if response.Err? then
      (sc2, Fail(InitRequestFailed(response.error)))
    else if response.value.error.Some? then
      (sc2, Fail(InitRpcError(response.value.error.value.code, response.value.error.value.message)))
    else
      var (sc3, _) := SendNotification(sc2, serverUrl, InitializedNotification, script);
      (sc3, Pass)
  }

  /** The append loop of each listing: one projected record per upstream
      record, in the same order. */
  function Project<T, I>(xs: seq<T>, project: T -> I): (ys: seq<I>)
    ensures |ys| == |xs|
    ensures forall i :: 0 <= i < |xs| ==> ys[i] == project(xs[i])
  {
    if |xs| == 0 then [] else Project(xs[..|xs| - 1], project) + [project(xs[|xs| - 1])]
  }

  /** What a listing call yields from the response it got: nothing when the
      call failed, when the response carries an error object or when its
      result does not decode (an absent result is decoded as JSON `null`);
      otherwise the projection of every decoded record. */
  function Listing<L, T, I>(
    response: Result<JsonRpcResponse, RequestError>,
    decode: RawJson -> Option<L>,
    items: L -> seq<T>,
    project: T -> I): (ys: seq<I>)
    ensures response.Err? ==> ys == []
    ensures response.Ok? && response.value.error.Some? ==> ys == []
    ensures response.Ok? && response.value.error.None? && decode(response.value.result.GetOr(JsonNull)).None?
            ==> ys == []
    ensures response.Ok? && response.value.error.None? && decode(response.value.result.GetOr(JsonNull)).Some?
            ==> var xs := items(decode(response.value.result.GetOr(JsonNull)).value);
                |ys| == |xs| && forall i :: 0 <= i < |xs| ==> ys[i] == project(xs[i])
  {
    if response.Err? || response.value.error.Some? then []
    else
      match decode(response.value.result.GetOr(JsonNull))
      case None => []
      case Some(list) => Project(items(list), project)
  }

  function ToolsOf(l: ListToolsResult): seq<Tool> { l.tools }
  function PromptsOf(l: ListPromptsResult): seq<Prompt> { l.prompts }
  function ResourcesOf(l: ListResourcesResult): seq<Resource> { l.resources }

  /** The tools a `tools/list` reply yields; it depends on that reply alone. */
  function ToolsFrom(env: Env, reply: Exchange): seq<ToolInfo> {
    Listing(Receive(env, reply), env.decodeTools, ToolsOf, ToToolInfo)
  }

  function PromptsFrom(env: Env, reply: Exchange): seq<PromptInfo> {
    Listing(Receive(env, reply), env.decodePrompts, PromptsOf, ToPromptInfo)
  }

  function ResourcesFrom(env: Env, reply: Exchange): seq<ResourceInfo> {
    Listing(Receive(env, reply), env.decodeResources, ResourcesOf, ToResourceInfo)
  }

  /** One listing call: takes a fresh id, sends the request, and turns the
      response into records; no failure escapes. */
  function Enumerate<L, T, I>(
    sc: Scanner, env: Env, serverUrl: string, methodName: string,
    decode: RawJson -> Option<L>, items: L -> seq<T>, project: T -> I,
    script: seq<Exchange>): (r: (Scanner, seq<I>))
    ensures r.1 == Listing(Receive(env, ReplyAt(script, |sc.log|)), decode, items, project)
    ensures r.0.log == sc.log + [Round(Post(sc.session, serverUrl, ListRequest(sc.session.requestId, methodName)),
                                       ReplyAt(script, |sc.log|))]
    ensures r.0.options == sc.options
    ensures r.0.session.requestId == sc.session.requestId + 1
    ensures r.0.session.sessionId == CaptureSession(sc.session.sessionId, ReplyAt(script, |sc.log|))
  {
    var (id, sc1) := NextRequestId(sc);
    var (sc2, response) := SendRequest(sc1, env, serverUrl, ListRequest(id, methodName), script);
    (sc2, Listing(response, decode, items, project))
  }

  /** `listTools`. */
  function ListTools(sc: Scanner, env: Env, serverUrl: string, script: seq<Exchange>): (r: (Scanner, seq<ToolInfo>))
    ensures r.1 == ToolsFrom(env, ReplyAt(script, |sc.log|))
    ensures r.0 == Enumerate(sc, env, serverUrl, ToolsListMethod, env.decodeTools, ToolsOf, ToToolInfo, script).0
  {
    Enumerate(sc, env, serverUrl, ToolsListMethod, env.decodeTools, ToolsOf, ToToolInfo, script)
  }

  /** `listPrompts`. */
  function ListPrompts(sc: Scanner, env: Env, serverUrl: string, script: seq<Exchange>): (r: (Scanner, seq<PromptInfo>))
    ensures r.1 == PromptsFrom(env, ReplyAt(script, |sc.log|))
    ensures r.0 == Enumerate(sc, env, serverUrl, PromptsListMethod, env.decodePrompts, PromptsOf, ToPromptInfo, script).0
  {
    Enumerate(sc, env, serverUrl, PromptsListMethod, env.decodePrompts, PromptsOf, ToPromptInfo, script)
  }

  /** `listResources`. */
  function ListResources(sc: Scanner, env: Env, serverUrl: string, script: seq<Exchange>): (r: (Scanner, seq<ResourceInfo>))
    ensures r.1 == ResourcesFrom(env, ReplyAt(script, |sc.log|))
    ensures r.0 == Enumerate(sc, env, serverUrl, ResourcesListMethod, env.decodeResources, ResourcesOf, ToResourceInfo, script).0
  {
    Enumerate(sc, env, serverUrl, ResourcesListMethod, env.decodeResources, ResourcesOf, ToResourceInfo, script)
  }

  // ---- Orchestration ----

  datatype Category = ToolsCategory | PromptsCategory | ResourcesCategory

  datatype ScanError = InvalidUrl | InitializeFailed(cause: InitError)

  datatype Phase = Idle | Handshaking | Enumerating(category: Category) | Done | Failed(error: ScanError)

  datatype ScanResult = ScanResult(tools: seq<ToolInfo>, prompts: seq<PromptInfo>, resources: seq<ResourceInfo>)

  /** The scan's state diagram: Idle, Handshaking, tools, prompts,
      resources, Done; Failed is entered only from Handshaking, and Done and
      Failed are final. */
  predicate Transition(from: Phase, to: Phase) {
    match from
    case Idle => to == Handshaking
    case Handshaking => to == Enumerating(ToolsCategory) || to.Failed?
    case Enumerating(ToolsCategory) => to == Enumerating(PromptsCategory)
    case Enumerating(PromptsCategory) => to == Enumerating(ResourcesCategory)
    case Enumerating(ResourcesCategory) => to == Done
    case Done => false
    case Failed(_) => false
  }

  /** A run of the diagram: it starts Idle, every step is a transition and
      it stops in Done or Failed. */
  predicate IsRun(phases: seq<Phase>) {
    && |phases| >= 1 && phases[0] == Idle
    && (forall i :: 0 <= i < |phases| - 1 ==> Transition(phases[i], phases[i + 1]))
    && (phases[|phases| - 1].Done? || phases[|phases| - 1].Failed?)
  }

  /** The run through all three listings to Done. */
  const CompletedRun := [Idle, Handshaking, Enumerating(ToolsCategory), Enumerating(PromptsCategory),
                         Enumerating(ResourcesCategory), Done]

  /** The diagram has exactly two kinds of run: the full one through the
      three listings to Done, and Idle, Handshaking, Failed. */
  lemma RunsOfTheDiagram(ps: seq<Phase>)
    requires IsRun(ps)
    ensures ps == CompletedRun || (|ps| == 3 && ps[..2] == [Idle, Handshaking] && ps[2].Failed?)
  {
    assert Transition(ps[0], ps[1]);
    assert Transition(ps[1], ps[2]);
    if ps[2].Failed? {
      assert |ps| > 3 ==> Transition(ps[2], ps[3]);
    } else {
      assert Transition(ps[2], ps[3]);
      assert Transition(ps[3], ps[4]);
      assert Transition(ps[4], ps[5]);
      assert |ps| > 6 ==> Transition(ps[5], ps[6]);
    }
  }

  /** The category a method lists; the handshake's methods list none. */
  function CategoryOf(methodName: string): Option<Category> {
    if methodName == ToolsListMethod then Some(ToolsCategory)
    else if methodName == PromptsListMethod then Some(PromptsCategory)
    else if methodName == ResourcesListMethod then Some(ResourcesCategory)
    else None
  }

  /** One enumeration phase per listing request among `rounds`, in the order
      they were sent; every other request belongs to the handshake. */
  function ListingPhases(rounds: seq<Round>): (r: seq<Phase>)
    ensures |r| <= |rounds|
    ensures forall i :: 0 <= i < |r| ==> r[i].Enumerating?
  {
    if |rounds| == 0 then []
    else
      (match CategoryOf(rounds[0].request.body.methodName)
       case Some(c) => [Enumerating(c)]
       case None => [])
      + ListingPhases(rounds[1..])
  }

  /** A scan's record: the scanner afterwards and either the three listings
      or the error. */
  datatype ScanRun = ScanRun(scanner: Scanner, outcome: Result<ScanResult, ScanError>)

  /** The phases a scan went through, read off what it sent after the first
      `start` rounds of its log: Idle, then Handshaking when the first round
      sent is `initialize` (or nothing was sent, the URL having failed), one
      enumeration per listing request, and Done or Failed as the outcome says. */
  function PhasesOf(r: ScanRun, start: nat): seq<Phase> {
    var sent := if start <= |r.scanner.log| then r.scanner.log[start..] else [];
    var handshake := if |sent| == 0 || sent[0].request.body.methodName == InitializeMethod then [Handshaking] else [];
    [Idle] + handshake + ListingPhases(sent)
      + [match r.outcome case Ok(_) => Done case Err(e) => Failed(e)]
  }

  /** The three listings, in the order tools, prompts, resources, one call
      each; each category's records come from its own reply. */
  function ListAll(sc: Scanner, env: Env, serverUrl: string, script: seq<Exchange>): (r: (Scanner, ScanResult))
    ensures var n := |sc.log|;
      r.1 == ScanResult(ToolsFrom(env, ReplyAt(script, n)),
                        PromptsFrom(env, ReplyAt(script, n + 1)),
                        ResourcesFrom(env, ReplyAt(script, n + 2)))
    ensures |r.0.log| == |sc.log| + 3 && r.0.log[..|sc.log|] == sc.log
  {
    var t := ListTools(sc, env, serverUrl, script);
    var p := ListPrompts(t.0, env, serverUrl, script);
    var q := ListResources(p.0, env, serverUrl, script);
    assert q.0.log[..|p.0.log|] == p.0.log && p.0.log[..|t.0.log|] == t.0.log;
    (q.0, ScanResult(t.1, p.1, q.1))
  }

  /** `Scan`: parses the URL, runs the handshake, and after a successful
      handshake lists the three categories; a failing listing does not fail
      the scan. */
  function Scan(sc: Scanner, env: Env, script: seq<Exchange>): (r: ScanRun)
    ensures r.outcome == Err(InvalidUrl) <==> env.parseUrl(sc.options.httpUrl).None?
  {
    match env.parseUrl(sc.options.httpUrl)
    case None => ScanRun(sc, Err(InvalidUrl))
    case Some(url) =>
      var (sc1, init) := Initialize(sc, env, url, script);
      if init.Fail? then ScanRun(sc1, Err(InitializeFailed(init.error)))
      else
        var (sc2, result) := ListAll(sc1, env, url, script);
        ScanRun(sc2, Ok(result))
  }
}
