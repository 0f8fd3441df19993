/** What ends the relay and its connections: which step sets which flag, what an unhealthy reply and a
    stubborn client lead to, and that a graceful close says so to the peer. */
module RelayEndings {
  import opened Wrappers
  import opened Rpc
  import opened Chains
  import opened Connections
  import opened Runs
  import opened Relay
  import opened RelayControl
  import opened RelayInvariant
  import opened RelayAttribution

  type Cause = (State, Action) -> bool

  function RunOf(judge: ErrorHandler, policy: Policy): seq<Action> -> State {
    actions => Run(judge, policy, actions)
  }

  lemma RunFolds(judge: ErrorHandler, policy: Policy)
    ensures Folds(RunOf(judge, policy), Step)
  {
    forall actions: seq<Action>, a: Action
      ensures Run(judge, policy, actions + [a]) == Step(Run(judge, policy, actions), a)
    {
      assert (actions + [a])[..|actions + [a]| - 1] == actions;
    }
  }

  // ------------------------------------------------------------------ the connections

  /** What ends a connection's context: a failing read, write or ping, or a Close that is done with it. */
  predicate Ends(s: State, a: Action, x: Side) {
    Enabled(s, a) && match a
      case ReadFails(y) => y == x
      case ClientWriter(w) => x == ClientSide && (w == WriteFails || w == PingFails)
      case ProviderWriter(w) => x == ProviderSide && (w == WriteFails || w == PingFails)
      case ByCloser(CloseCancels(th)) => Target(s, th) == x
      case _ => false
  }

  /** A closer hands its message to the write pump of this connection. */
  predicate HandsOver(s: State, a: Action, x: Side) {
    Enabled(s, a) && a.ByCloser? && a.k.CloseHandsOver? && Target(s, a.k.th) == x
  }

  function EndsOf(x: Side): Cause { (s: State, a: Action) => Ends(s, a, x) }

  function HandsOverOf(x: Side): Cause { (s: State, a: Action) => HandsOver(s, a, x) }

  function ConnWire(s: State, x: Side): seq<bool> {
    if x.ClientSide? then CloseFrames(s.client.wire) else CloseFrames(s.provider.wire)
  }

  predicate ToldToClose(s: State, x: Side) { true in ConnWire(s, x) }

  lemma EndsExactly(s: State, a: Action, x: Side)
    ensures Done(Step(s, a), x) <==> Done(s, x) || Ends(s, a, x)
  {
    if Enabled(s, a) {
      match a
      case ByCp(c) => CpFrame(s, c);
      case ByPp(p) => PpFrame(s, p);
      case ByCloser(k) => EffectOnSides(s, k);
      case ClientWriter(w) => WriterActs(s, w);
      case ProviderWriter(w) => WriterActs(s, w);
      case _ =>
    }
  }

  lemma CloseStepFrames(s: State, k: CloseAction, x: Side)
    requires CloseEnabled(s, k)
    ensures ToldToClose(CloseStep(s, k), x) <==> ToldToClose(s, x) || (k.CloseHandsOver? && Target(s, k.th) == x)
  {
    WithClosingFrame(Effect(s, k), k.th, Progress(s, k));
    if k.CloseHandsOver? {
      FramesMore(s.client.wire, CloseFrame);
      FramesMore(s.provider.wire, CloseFrame);
    }
  }

  lemma ToldExactly(s: State, a: Action, x: Side)
    ensures ToldToClose(Step(s, a), x) <==> ToldToClose(s, x) || HandsOver(s, a, x)
  {
    if Enabled(s, a) {
      match a
      case ByCp(c) => CpFrame(s, c);
      case ByPp(p) => PpFrame(s, p);
      case ByCloser(k) => CloseStepFrames(s, k, x);
      case ClientWriter(w) =>
        WriterActs(s, w);
        WriterSendsNoCloseFrame(s.client, w);
      case ProviderWriter(w) =>
        WriterActs(s, w);
        WriterSendsNoCloseFrame(s.provider, w);
      case _ =>
    }
  }

  /** In every run a connection's context has ended exactly when one of those steps ended it, and its
      peer was sent a close frame exactly when a closer handed one over. */
  lemma ConnectionsEndExactly(judge: ErrorHandler, policy: Policy, actions: seq<Action>, x: Side)
    ensures var s := Run(judge, policy, actions);
      && (Done(s, x) <==> exists k: nat :: Took(RunOf(judge, policy), actions, k, EndsOf(x)))
      && (ToldToClose(s, x) <==> exists k: nat :: Took(RunOf(judge, policy), actions, k, HandsOverOf(x)))
  {
    var done, told := (s: State) => Done(s, x), (s: State) => ToldToClose(s, x);
    RunFolds(judge, policy);
    forall s, a
      ensures Done(Step(s, a), x) <==> Done(s, x) || Ends(s, a, x)
      ensures ToldToClose(Step(s, a), x) <==> ToldToClose(s, x) || HandsOver(s, a, x)
    {
      EndsExactly(s, a, x);
      ToldExactly(s, a, x);
    }
    FlagExactly(RunOf(judge, policy), Step, actions, EndsOf(x), done);
    FlagExactly(RunOf(judge, policy), Step, actions, HandsOverOf(x), told);
  }

  lemma StepKeepsGoodbyes(s: State, a: Action)
    requires SaysGoodbye(s.client) && SaysGoodbye(s.provider)
    ensures SaysGoodbye(Step(s, a).client) && SaysGoodbye(Step(s, a).provider)
  {
    if Enabled(s, a) {
      match a
      case ByCp(c) => CpFrame(s, c);
      case ByPp(p) => PpFrame(s, p);
      case ByCloser(k) => CloseStepKeepsGoodbyes(s, k);
      case ClientWriter(w) =>
        WriterActs(s, w);
        WriterKeepsGoodbye(s.client, w);
      case ProviderWriter(w) =>
        WriterActs(s, w);
        WriterKeepsGoodbye(s.provider, w);
      case _ =>
    }
  }

  lemma CloseStepKeepsGoodbyes(s: State, k: CloseAction)
    requires CloseEnabled(s, k) && SaysGoodbye(s.client) && SaysGoodbye(s.provider)
    ensures SaysGoodbye(CloseStep(s, k).client) && SaysGoodbye(CloseStep(s, k).provider)
  {
    WithClosingFrame(Effect(s, k), k.th, Progress(s, k));
    AcceptCloseKeepsGoodbye(s.client);
    AcceptCloseKeepsGoodbye(s.provider);
  }

  /** A write pump that is gone while its context lives has sent a close frame last, and a close frame
      is never followed by anything: on both connections, in every run. */
  lemma {:induction false} GoodbyesAreLast(judge: ErrorHandler, policy: Policy, actions: seq<Action>)
    ensures SaysGoodbye(Run(judge, policy, actions).client) && SaysGoodbye(Run(judge, policy, actions).provider)
  {
    if actions != [] {
      GoodbyesAreLast(judge, policy, actions[..|actions| - 1]);
      StepKeepsGoodbyes(Run(judge, policy, actions[..|actions| - 1]), actions[|actions| - 1]);
    }
  }

  // ------------------------------------------------------------------------ the proxy

  /** What ends the proxy's own context: one bad frame too many, garbage from the provider, the last
      response after an unhealthy reply, or the handler returning. */
  predicate EndsProxy(s: State, a: Action) {
    Enabled(s, a) && match a
      case ByCp(c) => c.CpReceives? && BadFrame(s.q.recvC[0]) && s.badRequests >= 10
      case ByPp(p) => (p.PpReceives? && s.q.recvP[0].ProviderGarbage?) || ((p.PpQueues? || p.PpGivesUp?) && s.pp.last)
      case ByCloser(k) => k.th == HandlerThread && Progress(s, k).todo == []
      case _ => false
  }

  lemma CpEndsProxy(s: State, c: CpAction)
    requires CpEnabled(s, c)
    ensures CpStep(s, c).proxyDone <==> s.proxyDone || EndsProxy(s, ByCp(c))
  {
  }

  lemma PpEndsProxy(s: State, p: PpAction)
    requires PpEnabled(s, p)
    ensures PpStep(s, p).proxyDone <==> s.proxyDone || EndsProxy(s, ByPp(p))
  {
    if p.PpReceives? {
      ReceivingFrame(s);
    }
  }

  lemma CloserEndsProxy(s: State, k: CloseAction)
    requires CloseEnabled(s, k)
    ensures CloseStep(s, k).proxyDone <==> s.proxyDone || EndsProxy(s, ByCloser(k))
  {
    EffectFrame(s, k);
  }

  lemma EndsProxyExactly(s: State, a: Action)
    ensures Step(s, a).proxyDone <==> s.proxyDone || EndsProxy(s, a)
  {
    if Enabled(s, a) {
      match a
      case ByCp(c) => CpEndsProxy(s, c);
      case ByPp(p) => PpEndsProxy(s, p);
      case ByCloser(k) => CloserEndsProxy(s, k);
      case ClientWriter(w) => WriterActs(s, w);
      case ProviderWriter(w) => WriterActs(s, w);
      case _ =>
    }
  }

  lemma ProxyEndsExactly(judge: ErrorHandler, policy: Policy, actions: seq<Action>)
    ensures Run(judge, policy, actions).proxyDone <==>
      exists k: nat :: Took(RunOf(judge, policy), actions, k, EndsProxy)
  {
    RunFolds(judge, policy);
    forall s, a
      ensures Step(s, a).proxyDone <==> s.proxyDone || EndsProxy(s, a)
    {
      EndsProxyExactly(s, a);
    }
    FlagExactly(RunOf(judge, policy), Step, actions, EndsProxy, (s: State) => s.proxyDone);
  }

  /** Who is closed first: the provider after garbage from it, the client otherwise; and when one connection
      has ended by itself only the other is closed. */
  lemma ClosedFirst(s: State)
    ensures PpEnabled(s, PpReceives) && s.q.recvP[0].ProviderGarbage? ==>
      Step(s, ByPp(PpReceives)).pp == PClose(Closing([ProviderSide, ClientSide], Begin))
    ensures forall p :: PpEnabled(s, p) && SendsLast(s) ==>
      Step(s, ByPp(p)).pp == PClose(Closing([ClientSide, ProviderSide], Begin))
    ensures CpEnabled(s, CpReceives) && BadFrame(s.q.recvC[0]) && s.badRequests >= 10 ==>
      Step(s, ByCp(CpReceives)).cp == CClose(Closing([ClientSide, ProviderSide], Begin))
    ensures s.h == HWait ==>
      && Step(s, PrimaryIsBack).h == Step(s, ShutdownBegins).h == HClose(Closing([ClientSide, ProviderSide], Begin))
      && (s.client.done ==> Step(s, HSeesClientDone).h == HClose(Closing([ProviderSide], Begin)))
      && (s.provider.done ==> Step(s, HSeesProviderDone).h == HClose(Closing([ClientSide], Begin)))
      && (s.proxyDone ==> Step(s, HSeesProxyDone).h == HExit)
  {
  }

  // -------------------------------------------------------------- an unhealthy reply

  ghost predicate HeardFatal(s: State) {
    exists g: nat :: g < |s.log.history| && s.log.history[g].Got? && Fatal(s.judge, s.log.history[g].res)
  }

  /** The pump has its last response in hand. */
  predicate SendsLast(s: State) { s.pp.PSend? && s.pp.last }

  ghost predicate FatalEnds(s: State) {
    && (HeardFatal(s) ==> s.proxyDone || SendsLast(s))
    && (s.pp.PSend? ==> s.log.history != [] && s.log.history[|s.log.history| - 1] == Got(s.pp.res))
    && (s.pp.PSend? ==> (s.pp.last <==> Fatal(s.judge, s.pp.res)))
  }

  lemma ReplyHeard(s: State)
    requires PpEnabled(s, PpReceives) && FatalEnds(s)
    ensures FatalEnds(ReceiveFromProvider(s))
  {
    ReceivingFrame(s);
    var s' := ReceiveFromProvider(s);
    if s.q.recvP[0].ProviderReply? {
      ReplyRecords(s, s.q.recvP[0].res);
      ReplyInHand(s, s.q.recvP[0].res);
      assert forall g: nat :: g < |s.log.history| ==> s'.log.history[g] == s.log.history[g];
    }
  }

  lemma ReplyInHand(s: State, res: Response)
    requires s.q.recvP != [] && s.q.recvP[0] == ProviderReply(res)
    ensures ReceiveFromProvider(s).pp == PSend(res, Fatal(s.judge, res))
  {
  }

  lemma RequestHeard(s: State, flush: Option<nat>)
    requires s.q.requests != [] && !s.pp.PSend? && FatalEnds(s)
    ensures FatalEnds(TakeRequest(s, flush))
  {
    var s' := TakeRequest(s, flush);
    assert forall g: nat :: g < |s.log.history| ==> s'.log.history[g] == s.log.history[g];
    assert s'.log.history[|s.log.history|].Sent?;
  }

  lemma PpKeepsFatalEnds(s: State, p: PpAction)
    requires PpEnabled(s, p) && FatalEnds(s)
    ensures FatalEnds(PpStep(s, p))
  {
    match p
    case PpReceives => ReplyHeard(s);
    case PpTakes => RequestHeard(s, None);
    case PpFlushes => if s.pp.n != 0 { RequestHeard(s, Some(s.pp.n - 1)); }
    case _ =>
  }

  lemma OthersKeepFatalEnds(s: State, a: Action)
    requires Enabled(s, a) && !a.ByPp? && FatalEnds(s)
    ensures FatalEnds(Step(s, a))
  {
    EndsProxyExactly(s, a);
    ContextsStayDone(s, a);
    match a
    case ByCp(c) => CpKeepsHistory(s, c);
    case ByCloser(k) => CloseTouchesNoMessage(s, k);
    case _ => OutsideTouchesNoMessage(s, a);
  }

  lemma CpKeepsHistory(s: State, c: CpAction)
    requires CpEnabled(s, c)
    ensures CpStep(s, c).log.history == s.log.history && CpStep(s, c).pp == s.pp
  {
  }

  /** In every run, once a reply said the provider is unhealthy, the proxy has ended or the pump is
      about to end it with that reply in hand; and only such a reply is ever the last one. */
  lemma {:induction false} FatalReplyEndsRelay(judge: ErrorHandler, policy: Policy, actions: seq<Action>)
    ensures FatalEnds(Run(judge, policy, actions)) && Run(judge, policy, actions).judge == judge
  {
    if actions != [] {
      var s, a := Run(judge, policy, actions[..|actions| - 1]), actions[|actions| - 1];
      FatalReplyEndsRelay(judge, policy, actions[..|actions| - 1]);
      ContextsStayDone(s, a);
      if Enabled(s, a) {
        match a
        case ByPp(p) => PpKeepsFatalEnds(s, p);
        case _ => OthersKeepFatalEnds(s, a);
      }
    }
  }

  /** However the pump gets rid of its last response, to the client pump or not at all, the proxy has
      ended then and the pump is about to close both connections. */
  lemma LastResponseCloses(s: State, p: PpAction)
    requires SendsLast(s) && PpEnabled(s, p)
    ensures p.PpQueues? || p.PpGivesUp?
    ensures var s' := Step(s, ByPp(p));
      && s'.proxyDone && Listed(s', ProviderPumpThread, ClientSide) && Listed(s', ProviderPumpThread, ProviderSide)
      && Calling(s', ProviderPumpThread, Begin)
  {
  }

  // ------------------------------------------------------------- a stubborn client

  /** The bad frames since the last good one. */
  function BadInARow(fs: seq<ClientFrame>): nat {
    if fs == [] || !BadFrame(fs[|fs| - 1]) then 0 else BadInARow(fs[..|fs| - 1]) + 1
  }

  /** Ten bad frames in a row are forgiven and the eleventh is not; a good one starts the count again. */
  ghost predicate CountsBad(s: State) {
    && s.badRequests == BadInARow(s.log.readC)
    && (s.badRequests > 10 ==> s.proxyDone && (s.cp.CClose? || s.cp.CExit?))
    && (s.cp.CClose? ==> s.badRequests > 10)
  }

  lemma OneMoreFrame(fs: seq<ClientFrame>, f: ClientFrame)
    ensures BadInARow(fs + [f]) == if BadFrame(f) then BadInARow(fs) + 1 else 0
  {
    assert (fs + [f])[..|fs|] == fs;
  }

  lemma FrameCounted(s: State)
    requires CpEnabled(s, CpReceives)
    ensures var f, s' := s.q.recvC[0], ReceiveFromClient(s);
      && s'.log.readC == s.log.readC + [f] && (s.proxyDone ==> s'.proxyDone)
      && s'.badRequests == (if BadFrame(f) then s.badRequests + 1 else 0)
      && (s'.cp.CClose? <==> s'.badRequests > 10) && (s'.badRequests > 10 ==> s'.proxyDone)
  {
  }

  lemma FrameCountsBad(s: State)
    requires CpEnabled(s, CpReceives) && CountsBad(s)
    ensures CountsBad(ReceiveFromClient(s))
  {
    OneMoreFrame(s.log.readC, s.q.recvC[0]);
    FrameCounted(s);
  }

  lemma CpCountsBad(s: State, c: CpAction)
    requires CpEnabled(s, c) && CountsBad(s)
    ensures CountsBad(CpStep(s, c))
  {
    match c
    case CpReceives => FrameCountsBad(s);
    case _ =>
  }

  lemma OthersCountBad(s: State, a: Action)
    requires Enabled(s, a) && !a.ByCp? && CountsBad(s)
    ensures CountsBad(Step(s, a))
  {
    ContextsStayDone(s, a);
    match a
    case ByPp(p) =>
      PpFrame(s, p);
      PpReads(s, p);
      PpKeepsCount(s, p);
    case ByCloser(k) =>
      CloseTouchesNoMessage(s, k);
      CloseKeepsCount(s, k);
    case _ => OutsideTouchesNoMessage(s, a);
  }

  lemma PpKeepsCount(s: State, p: PpAction)
    requires PpEnabled(s, p)
    ensures PpStep(s, p).badRequests == s.badRequests
  {
  }

  lemma CloseKeepsCount(s: State, k: CloseAction)
    requires CloseEnabled(s, k)
    ensures CloseStep(s, k).badRequests == s.badRequests
  {
  }

  /** In every run the count is that of the bad frames since the last good one, and an eleventh ends the
      proxy. */
  lemma {:induction false} BadFramesAreCounted(judge: ErrorHandler, policy: Policy, actions: seq<Action>)
    ensures CountsBad(Run(judge, policy, actions))
  {
    if actions != [] {
      var s, a := Run(judge, policy, actions[..|actions| - 1]), actions[|actions| - 1];
      BadFramesAreCounted(judge, policy, actions[..|actions| - 1]);
      if Enabled(s, a) {
        match a
        case ByCp(c) => CpCountsBad(s, c);
        case _ => OthersCountBad(s, a);
      }
    }
  }

  /** What counts as bad: what does not decode, an empty batch, or more than a hundred requests. */
  lemma BadFramesAre(reqs: seq<Request>)
    ensures BadFrame(ClientGarbage) && (BadFrame(ClientBatch(reqs)) <==> |reqs| == 0 || |reqs| > 100)
  {
  }
}
