/** What a whole scan guarantees: when it can fail, what each category's
    listing depends on, which requests go out in which order with which ids,
    and that the session header follows the capture rule throughout. */
module ScanProperties {
  import opened Wrappers
  import opened Types
  import opened Transport
  import opened Scanning

  /** `initialize` keeps the scanner's state in line with its log. */
  lemma InitializeKeepsWellFormed(sc: Scanner, env: Env, serverUrl: string, script: seq<Exchange>)
    requires WellFormed(sc)
    ensures WellFormed(Initialize(sc, env, serverUrl, script).0)
  {
    var (id, sc1) := NextRequestId(sc);
    var (sc2, response) := SendRequest(sc1, env, serverUrl, InitializeRequest(id), script);
    AppendKeepsWellFormed(sc, sc2.log[|sc.log|], sc2);
    if response.Ok? && response.value.error.None? {
      var (sc3, _) := SendNotification(sc2, serverUrl, InitializedNotification, script);
      AppendKeepsWellFormed(sc2, sc3.log[|sc2.log|], sc3);
    }
  }

  /** A listing call keeps the scanner's state in line with its log. */
  lemma EnumerateKeepsWellFormed<L, T, I>(
    sc: Scanner, env: Env, serverUrl: string, methodName: string,
    decode: RawJson -> Option<L>, items: L -> seq<T>, project: T -> I, script: seq<Exchange>)
    requires WellFormed(sc)
    ensures WellFormed(Enumerate(sc, env, serverUrl, methodName, decode, items, project, script).0)
  {
    var r := Enumerate(sc, env, serverUrl, methodName, decode, items, project, script);
    AppendKeepsWellFormed(sc, r.0.log[|sc.log|], r.0);
  }

  /** The three listings keep the scanner's state in line with its log. */
  lemma ListAllKeepsWellFormed(sc: Scanner, env: Env, serverUrl: string, script: seq<Exchange>)
    requires WellFormed(sc)
    ensures WellFormed(ListAll(sc, env, serverUrl, script).0)
  {
    var (sc1, _) := ListTools(sc, env, serverUrl, script);
    EnumerateKeepsWellFormed(sc, env, serverUrl, ToolsListMethod, env.decodeTools, ToolsOf, ToToolInfo, script);
    var (sc2, _) := ListPrompts(sc1, env, serverUrl, script);
    EnumerateKeepsWellFormed(sc1, env, serverUrl, PromptsListMethod, env.decodePrompts, PromptsOf, ToPromptInfo, script);
    EnumerateKeepsWellFormed(sc2, env, serverUrl, ResourcesListMethod, env.decodeResources, ResourcesOf, ToResourceInfo, script);
  }

  /** Session header and request ids obey the rules through a whole scan:
      every request carries the session id captured by the calls before it
      (none before the first capture, the latest one after), calls are
      numbered by the calls before them, and the scanner ends in the state
      its log implies. */
  lemma ScanKeepsWellFormed(sc: Scanner, env: Env, script: seq<Exchange>)
    requires WellFormed(sc)
    ensures WellFormed(Scan(sc, env, script).scanner)
  {
    match env.parseUrl(sc.options.httpUrl)
    case None =>
    case Some(u) =>
      var (sc1, init) := Initialize(sc, env, u, script);
      InitializeKeepsWellFormed(sc, env, u, script);
      if init.Pass? {
        ListAllKeepsWellFormed(sc1, env, u, script);
      }
  }

  /** The listing requests carry the next three ids and the methods
      `tools/list`, `prompts/list`, `resources/list`, in that order. */
  lemma ListAllRequests(sc: Scanner, env: Env, serverUrl: string, script: seq<Exchange>)
    ensures var r := ListAll(sc, env, serverUrl, script).0; var n := |sc.log|; var id := sc.session.requestId;
      && r.log[n].request.body == ListRequest(id, ToolsListMethod)
      && r.log[n + 1].request.body == ListRequest(id + 1, PromptsListMethod)
      && r.log[n + 2].request.body == ListRequest(id + 2, ResourcesListMethod)
      && r.session.requestId == id + 3
  {
    var (sc1, _) := ListTools(sc, env, serverUrl, script);
    var (sc2, _) := ListPrompts(sc1, env, serverUrl, script);
    var (sc3, _) := ListResources(sc2, env, serverUrl, script);
    assert sc3.log[|sc.log|] == sc1.log[|sc.log|] by { assert sc3.log[..|sc2.log|] == sc2.log; }
    assert sc3.log[|sc.log| + 1] == sc2.log[|sc.log| + 1];
  }

  /** A scan fails only in its handshake: on a URL that does not parse
      (before anything is sent) or when `initialize` fails (and then nothing
      is sent after it). Once the handshake succeeds the scan succeeds. */
  lemma ScanFailsOnlyInHandshake(sc: Scanner, env: Env, script: seq<Exchange>)
    ensures var r := Scan(sc, env, script);
      env.parseUrl(sc.options.httpUrl).None? ==> r.outcome == Err(InvalidUrl) && r.scanner.log == sc.log
    ensures var r := Scan(sc, env, script);
      env.parseUrl(sc.options.httpUrl).Some? ==>
        var init := Initialize(sc, env, env.parseUrl(sc.options.httpUrl).value, script);
        && (r.outcome.Err? <==> init.1.Fail?)
        && (init.1.Fail? ==> r.outcome == Err(InitializeFailed(init.1.error)) && r.scanner.log == init.0.log)
  {
  }

  /** After a successful handshake the three listings are attempted in the
      order tools, prompts, resources, one request each, and each category's
      records are what its own reply yields, whatever became of the others. */
  lemma ScanListsEachCategoryFromItsOwnReply(sc: Scanner, env: Env, script: seq<Exchange>)
    requires env.parseUrl(sc.options.httpUrl).Some?
    requires Initialize(sc, env, env.parseUrl(sc.options.httpUrl).value, script).1.Pass?
    ensures var r := Scan(sc, env, script); var n := |sc.log|;
      && r.outcome == Ok(ScanResult(
           ToolsFrom(env, ReplyAt(script, n + 2)),
           PromptsFrom(env, ReplyAt(script, n + 3)),
           ResourcesFrom(env, ReplyAt(script, n + 4))))
      && |r.scanner.log| == n + 5
      && r.scanner.log[n + 2].request.body.methodName == ToolsListMethod
      && r.scanner.log[n + 3].request.body.methodName == PromptsListMethod
      && r.scanner.log[n + 4].request.body.methodName == ResourcesListMethod
  {
    var u := env.parseUrl(sc.options.httpUrl).value;
    var (sc1, _) := Initialize(sc, env, u, script);
    ListAllRequests(sc1, env, u, script);
  }

  /** Failure isolation: two scans whose scripts differ only in the reply to
      `tools/list` report the same prompts and resources. Here the tools
      reply may be anything at all, a failure, an error object or
      undecodable JSON included. (That each category depends on its own
      reply alone is `ScanListsEachCategoryFromItsOwnReply`.) */
  lemma ToolsReplyDoesNotAffectOtherCategories(sc: Scanner, env: Env, a: seq<Exchange>, b: seq<Exchange>)
    requires env.parseUrl(sc.options.httpUrl).Some?
    requires Initialize(sc, env, env.parseUrl(sc.options.httpUrl).value, a).1.Pass?
    requires forall k :: k != |sc.log| + 2 ==> ReplyAt(a, k) == ReplyAt(b, k)
    ensures var ra, rb := Scan(sc, env, a).outcome, Scan(sc, env, b).outcome;
      && ra.Ok? && rb.Ok?
      && ra.value.prompts == rb.value.prompts
      && ra.value.resources == rb.value.resources
  {
    var u := env.parseUrl(sc.options.httpUrl).value;
    assert ReplyAt(a, |sc.log|) == ReplyAt(b, |sc.log|);
    ScanListsEachCategoryFromItsOwnReply(sc, env, a);
    ScanListsEachCategoryFromItsOwnReply(sc, env, b);
    assert ReplyAt(a, |sc.log| + 3) == ReplyAt(b, |sc.log| + 3);
    assert ReplyAt(a, |sc.log| + 4) == ReplyAt(b, |sc.log| + 4);
  }

  /** A listing whose reply is a failure or carries an error object yields
      no records, and the scan still succeeds with the other two. */
  lemma FailedListingIsEmpty(sc: Scanner, env: Env, script: seq<Exchange>)
    requires env.parseUrl(sc.options.httpUrl).Some?
    requires Initialize(sc, env, env.parseUrl(sc.options.httpUrl).value, script).1.Pass?
    ensures var r := Scan(sc, env, script); var n := |sc.log|;
      && r.outcome.Ok?
      && (var tools := Receive(env, ReplyAt(script, n + 2));
          tools.Err? || tools.value.error.Some? ==> r.outcome.value.tools == [])
      && (var prompts := Receive(env, ReplyAt(script, n + 3));
          prompts.Err? || prompts.value.error.Some? ==> r.outcome.value.prompts == [])
      && (var resources := Receive(env, ReplyAt(script, n + 4));
          resources.Err? || resources.value.error.Some? ==> r.outcome.value.resources == [])
  {
    ScanListsEachCategoryFromItsOwnReply(sc, env, script);
  }

  /** A fresh scanner's successful scan sends exactly five requests:
      `initialize` with id 1, the initialized notification without an id,
      then `tools/list`, `prompts/list` and `resources/list` with ids 2, 3
      and 4. The notification consumes no id. */
  lemma FreshScanRequestSequence(options: ScanOptions, env: Env, script: seq<Exchange>)
    ensures var r := Scan(New(options), env, script);
      r.outcome.Ok? ==>
        && |r.scanner.log| == 5
        && r.scanner.log[0].request.body == InitializeRequest(1)
        && r.scanner.log[1].request.body == InitializedNotification
        && r.scanner.log[2].request.body == ListRequest(2, ToolsListMethod)
        && r.scanner.log[3].request.body == ListRequest(3, PromptsListMethod)
        && r.scanner.log[4].request.body == ListRequest(4, ResourcesListMethod)
  {
    var sc := New(options);
    match env.parseUrl(options.httpUrl)
    case None =>
    case Some(u) =>
      var (sc1, init) := Initialize(sc, env, u, script);
      if init.Pass? {
        ListAllRequests(sc1, env, u, script);
        var sc2 := ListAll(sc1, env, u, script).0;
        assert sc2.log[..2] == sc1.log;
        assert sc2.log[0] == sc1.log[0] && sc2.log[1] == sc1.log[1];
      }
  }

  /** Every round of a log got the scripted reply of its position: the
      server answers the requests in the order they were sent. */
  predicate AnsweredInOrder(log: seq<Round>, script: seq<Exchange>) {
    forall k :: 0 <= k < |log| ==> log[k].reply == ReplyAt(script, k)
  }

  lemma InitializeAnswersInOrder(sc: Scanner, env: Env, serverUrl: string, script: seq<Exchange>)
    requires AnsweredInOrder(sc.log, script)
    ensures AnsweredInOrder(Initialize(sc, env, serverUrl, script).0.log, script)
  {
    var sc1 := NextRequestId(sc).1;
    var sent := SendRequest(sc1, env, serverUrl, InitializeRequest(sc.session.requestId), script);
    AppendAnswered(sc.log, sent.0.log[|sc.log|], script);
    if sent.1.Ok? && sent.1.value.error.None? {
      var notified := SendNotification(sent.0, serverUrl, InitializedNotification, script);
      AppendAnswered(sent.0.log, notified.0.log[|sent.0.log|], script);
    }
  }

  /** Appending the round that got the next scripted reply keeps a log
      answered in order. */
  lemma AppendAnswered(log: seq<Round>, round: Round, script: seq<Exchange>)
    requires AnsweredInOrder(log, script)
    requires round.reply == ReplyAt(script, |log|)
    ensures AnsweredInOrder(log + [round], script)
  {
  }

  lemma EnumerateAnswersInOrder<L, T, I>(
    sc: Scanner, env: Env, serverUrl: string, methodName: string,
    decode: RawJson -> Option<L>, items: L -> seq<T>, project: T -> I, script: seq<Exchange>)
    requires AnsweredInOrder(sc.log, script)
    ensures AnsweredInOrder(Enumerate(sc, env, serverUrl, methodName, decode, items, project, script).0.log, script)
  {
  }

  /** The three listings keep every request paired with the reply of its
      position. */
  lemma ListAllAnswersInOrder(sc: Scanner, env: Env, serverUrl: string, script: seq<Exchange>)
    requires AnsweredInOrder(sc.log, script)
    ensures AnsweredInOrder(ListAll(sc, env, serverUrl, script).0.log, script)
  {
    var (sc1, _) := ListTools(sc, env, serverUrl, script);
    EnumerateAnswersInOrder(sc, env, serverUrl, ToolsListMethod, env.decodeTools, ToolsOf, ToToolInfo, script);
    var (sc2, _) := ListPrompts(sc1, env, serverUrl, script);
    EnumerateAnswersInOrder(sc1, env, serverUrl, PromptsListMethod, env.decodePrompts, PromptsOf, ToPromptInfo, script);
    EnumerateAnswersInOrder(sc2, env, serverUrl, ResourcesListMethod, env.decodeResources, ResourcesOf, ToResourceInfo, script);
  }

  /** A scan keeps every request paired with the reply of its position. */
  lemma ScanAnswersInOrder(sc: Scanner, env: Env, script: seq<Exchange>)
    requires AnsweredInOrder(sc.log, script)
    ensures AnsweredInOrder(Scan(sc, env, script).scanner.log, script)
  {
    match env.parseUrl(sc.options.httpUrl)
    case None =>
    case Some(u) =>
      var (sc1, init) := Initialize(sc, env, u, script);
      InitializeAnswersInOrder(sc, env, u, script);
      if init.Pass? {
        ListAllAnswersInOrder(sc1, env, u, script);
      }
  }

  /** The requests a scan sends trace a run of the state diagram: a failed
      scan never enumerates (Idle, Handshaking, Failed), and a successful one
      enumerates tools, prompts and resources once each, in that order, and
      ends in Done. */
  lemma ScanFollowsDiagram(sc: Scanner, env: Env, script: seq<Exchange>)
    ensures var r := Scan(sc, env, script); var ps := PhasesOf(r, |sc.log|);
      && IsRun(ps)
      && (r.outcome.Ok? ==> ps == CompletedRun)
      && (r.outcome.Err? ==> ps == [Idle, Handshaking, Failed(r.outcome.error)])
  {
    var r := Scan(sc, env, script);
    var n := |sc.log|;
    ScanFailsOnlyInHandshake(sc, env, script);
    match env.parseUrl(sc.options.httpUrl)
    case None =>
      PhasesOfFailedScan(r, n);
    case Some(u) =>
      var (sc1, init) := Initialize(sc, env, u, script);
      if init.Fail? {
        PhasesOfFailedScan(r, n);
      } else {
        ScanListsEachCategoryFromItsOwnReply(sc, env, script);
        var sc2 := ListAll(sc1, env, u, script).0;
        assert sc2.log[..n + 2] == sc1.log;
        assert sc2.log[n] == sc1.log[n] && sc2.log[n + 1] == sc1.log[n + 1];
        PhasesOfCompletedScan(r, n);
      }
  }

  /** A failed scan that sent nothing or only `initialize` went Idle,
      Handshaking, Failed. */
  lemma PhasesOfFailedScan(r: ScanRun, n: nat)
    requires r.outcome.Err?
    requires |r.scanner.log| == n || (|r.scanner.log| == n + 1 && r.scanner.log[n].request.body.methodName == InitializeMethod)
    ensures IsRun(PhasesOf(r, n)) && PhasesOf(r, n) == [Idle, Handshaking, Failed(r.outcome.error)]
  {
    var sent := r.scanner.log[n..];
    if |sent| == 1 {
      assert CategoryOf(InitializeMethod) == None by {
        assert InitializeMethod[0] != ToolsListMethod[0];
      }
      assert sent[1..] == [];
    }
    var ps := PhasesOf(r, n);
    assert Transition(ps[0], ps[1]) && Transition(ps[1], ps[2]);
  }

  /** A scan whose first request is not `initialize` is no run of the
      diagram: the handshake cannot be skipped. */
  lemma SkippedHandshakeIsNoRun(r: ScanRun, n: nat)
    requires n < |r.scanner.log|
    requires r.scanner.log[n].request.body.methodName != InitializeMethod
    ensures !IsRun(PhasesOf(r, n))
  {
    var ps := PhasesOf(r, n);
    assert ps[1] != Handshaking;
    assert !Transition(ps[0], ps[1]);
  }

  /** A scan that sent the handshake's two requests and then the three
      listings went through the whole diagram. */
  lemma PhasesOfCompletedScan(r: ScanRun, n: nat)
    requires r.outcome.Ok?
    requires |r.scanner.log| == n + 5
    requires r.scanner.log[n].request.body.methodName == InitializeMethod
    requires r.scanner.log[n + 1].request.body.methodName == InitializedMethod
    requires r.scanner.log[n + 2].request.body.methodName == ToolsListMethod
    requires r.scanner.log[n + 3].request.body.methodName == PromptsListMethod
    requires r.scanner.log[n + 4].request.body.methodName == ResourcesListMethod
    ensures IsRun(PhasesOf(r, n)) && PhasesOf(r, n) == CompletedRun
  {
    var t0 := r.scanner.log[n..];
    var t1 := t0[1..];
    var t2 := t1[1..];
    var t3 := t2[1..];
    var t4 := t3[1..];
    assert t4[1..] == [];
    assert ListingPhases(t4) == [Enumerating(ResourcesCategory)];
    assert ListingPhases(t3) == [Enumerating(PromptsCategory), Enumerating(ResourcesCategory)];
    assert ListingPhases(t2) == [Enumerating(ToolsCategory), Enumerating(PromptsCategory), Enumerating(ResourcesCategory)];
    assert ListingPhases(t1) == ListingPhases(t2);
    assert CategoryOf(InitializeMethod) == None by {
      assert InitializeMethod[0] != ToolsListMethod[0];
    }
    assert ListingPhases(t0) == ListingPhases(t1);
    var ps := PhasesOf(r, n);
    assert Transition(ps[0], ps[1]) && Transition(ps[1], ps[2]) && Transition(ps[2], ps[3]);
    assert Transition(ps[3], ps[4]) && Transition(ps[4], ps[5]);
  }
}
