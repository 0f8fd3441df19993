/** What every step of the relay keeps about queues, contexts and closing. */
module RelayControl {
  import opened Wrappers
  import opened Rpc
  import opened Chains
  import opened Connections
  import opened Relay

  // ------------------------------------------------------------- queues and flushes

  /** The pumps hold something in their sending states, and never count more than is there. */
  predicate CpFlushReady(s: State) {
    match s.cp
    case CSend(reqs) => reqs != []
    case CReject(left) => left != []
    case CWrite(_, flush) => flush.Some? ==> flush.value <= |s.q.responses|
    case CFlush(n) => n <= |s.q.responses|
    case _ => true
  }

  predicate PpFlushReady(s: State) {
    match s.pp
    case PWrite(_, flush) => flush.Some? ==> flush.value <= |s.q.requests|
    case PFlush(n) => n <= |s.q.requests|
    case _ => true
  }

  predicate Flow(s: State) {
    && |s.q.requests| <= QUEUE && |s.q.responses| <= QUEUE && |s.q.recvC| <= QUEUE && |s.q.recvP| <= QUEUE
    && |s.client.send| <= QUEUE && |s.provider.send| <= QUEUE
    && FlushReady(s.client) && FlushReady(s.provider)
    && CpFlushReady(s) && PpFlushReady(s)
  }

  // ----------------------------------------------------------------- who has left

  predicate Roles(s: State) {
    && (s.cp == CExit ==> AnyDone(s))
    && (s.cp.CClose? ==> s.proxyDone && s.cp.k.todo != [])
    && (s.pp == PExit ==> s.proxyDone || s.provider.done)
    && (s.pp.PClose? ==> s.proxyDone && s.pp.k.todo != [])
    && (s.h == HExit ==> s.proxyDone)
    && (s.h.HClose? ==> s.h.k.todo != [])
    && (s.log.abandonedReqs != [] ==> s.cp == CExit)
    && (s.log.abandonedRes != [] ==> s.pp == PExit || s.pp.PClose?)
  }

  // -------------------------------------------------------------- one closer a side

  predicate PastBegin(s: State, th: Thread, x: Side) {
    (Calling(s, th, Offer) || Calling(s, th, Cancel)) && Target(s, th) == x
  }

  ghost predicate Locks(s: State) {
    && (forall th, x :: PastBegin(s, th, x) ==> Closed(s, x))
    && (forall th, u, x :: PastBegin(s, th, x) && PastBegin(s, u, x) ==> th == u)
    && (forall x :: Closed(s, x) && !Done(s, x) ==> exists th :: PastBegin(s, th, x))
    && (forall x :: WriterGone(s, x) && !Done(s, x) ==> exists th :: PastBegin(s, th, x) && Calling(s, th, Cancel))
  }

  // ------------------------------------------- nobody leaves a connection behind

  predicate Listed(s: State, th: Thread, x: Side) {
    ClosingOf(s, th).Some? && x in ClosingOf(s, th).value.todo
  }

  /** The connection has ended, is being ended, or is on somebody's list. */
  ghost predicate Covered(s: State, x: Side) {
    Done(s, x) || Closed(s, x) || exists th :: Listed(s, th, x)
  }

  ghost predicate Cover(s: State) {
    s.proxyDone || s.h != HWait ==> Covered(s, ClientSide) && Covered(s, ProviderSide)
  }

  ghost predicate Inv(s: State) { Flow(s) && Roles(s) && Locks(s) && Cover(s) }

  // ----------------------------------------------------------------- what steps do

  lemma WithClosingFrame(s: State, th: Thread, k: Closing)
    requires ClosingOf(s, th).Some?
    ensures var s' := WithClosing(s, th, k);
      && s'.q == s.q && s'.log == s.log && s'.pending == s.pending && s'.judge == s.judge && s'.policy == s.policy
      && s'.client == s.client && s'.provider == s.provider && (s.proxyDone ==> s'.proxyDone)
      && (s'.cp == s.cp || (s.cp.CClose? && (s'.cp.CClose? || s'.cp.CExit?)))
      && (s'.pp == s.pp || (s.pp.PClose? && (s'.pp.PClose? || s'.pp.PExit?)))
  {
  }

  lemma EffectFrame(s: State, a: CloseAction)
    requires CloseEnabled(s, a)
    ensures var s' := Effect(s, a);
      && s'.q == s.q && s'.log == s.log && s'.pending == s.pending && s'.judge == s.judge && s'.policy == s.policy
      && s'.cp == s.cp && s'.pp == s.pp && s'.h == s.h && s'.proxyDone == s.proxyDone
      && s'.client.send == s.client.send && s'.provider.send == s.provider.send
      && (s.client.done ==> s'.client.done) && (s.provider.done ==> s'.provider.done)
  {
  }

  /** Closing moves no message and touches no bookkeeping. */
  lemma CloseTouchesNoMessage(s: State, a: CloseAction)
    requires CloseEnabled(s, a)
    ensures var s' := CloseStep(s, a);
      && s'.q == s.q && s'.log == s.log && s'.pending == s.pending && s'.judge == s.judge && s'.policy == s.policy
      && (s'.cp == s.cp || (s.cp.CClose? && (s'.cp.CClose? || s'.cp.CExit?)))
      && (s'.pp == s.pp || (s.pp.PClose? && (s'.pp.PClose? || s'.pp.PExit?)))
      && s'.client.send == s.client.send && s'.provider.send == s.provider.send
      && (s.proxyDone ==> s'.proxyDone) && (s.client.done ==> s'.client.done) && (s.provider.done ==> s'.provider.done)
  {
    EffectFrame(s, a);
    WithClosingFrame(Effect(s, a), a.th, Progress(s, a));
  }

  lemma CloseKeepsStreams(s: State, a: CloseAction)
    requires CloseEnabled(s, a)
    ensures Stream(CloseStep(s, a).client) == Stream(s.client)
    ensures Stream(CloseStep(s, a).provider) == Stream(s.provider)
  {
    EffectFrame(s, a);
    WithClosingFrame(Effect(s, a), a.th, Progress(s, a));
    if a.CloseHandsOver? {
      if Target(s, a.th).ProviderSide? {
        AcceptCloseKeepsStream(s.provider);
      } else {
        AcceptCloseKeepsStream(s.client);
      }
    }
  }

  /** Not a step of the pumps or of Close: the outside world, a write pump, the handler's select. */
  predicate Outside(a: Action) { !a.ByCp? && !a.ByPp? && !a.ByCloser? }

  /** What the provider pump leaves alone, and how it begins to close. */
  lemma PpFrame(s: State, a: PpAction)
    requires PpEnabled(s, a)
    ensures var s' := PpStep(s, a);
      && s'.client == s.client && s'.provider == s.provider.(send := s'.provider.send) && s'.cp == s.cp && s'.h == s.h
      && s'.judge == s.judge && s'.policy == s.policy && (s.proxyDone ==> s'.proxyDone)
      && !s.pp.PClose? && (s'.pp.PClose? ==> s'.proxyDone && s'.pp.k in {CLOSE_BOTH, CLOSE_PROVIDER_FIRST})
      && (s'.proxyDone && !s.proxyDone ==> s'.pp.PClose?)
  {
    if a.PpReceives? {
      ReceivingFrame(s);
    }
  }

  lemma ReceivingFrame(s: State)
    requires PpEnabled(s, PpReceives)
    ensures var s' := ReceiveFromProvider(s);
      && s'.client == s.client && s'.provider == s.provider && s'.cp == s.cp && s'.h == s.h
      && s'.judge == s.judge && s'.policy == s.policy
      && if s.q.recvP[0].ProviderGarbage? then s'.proxyDone && s'.pp == PClose(CLOSE_PROVIDER_FIRST)
         else s'.proxyDone == s.proxyDone && s'.pp.PSend?
  {
  }

  /** What the client pump leaves alone, and how it begins to close. */
  lemma CpFrame(s: State, a: CpAction)
    requires CpEnabled(s, a)
    ensures var s' := CpStep(s, a);
      && s'.provider == s.provider && s'.client == s.client.(send := s'.client.send) && s'.pp == s.pp && s'.h == s.h
      && s'.judge == s.judge && s'.policy == s.policy && (s.proxyDone ==> s'.proxyDone)
      && !s.cp.CClose? && (s'.cp.CClose? ==> s'.proxyDone && s'.cp.k == CLOSE_BOTH)
      && (s'.proxyDone && !s.proxyDone ==> s'.cp.CClose?)
  {
  }

  lemma WriterActs(s: State, w: WriterAction)
    ensures Step(s, ClientWriter(w)) == s.(client := WriterStep(s.client, w))
    ensures Step(s, ProviderWriter(w)) == s.(provider := WriterStep(s.provider, w))
  {
  }

  lemma OutsideTouchesNoMessage(s: State, a: Action)
    requires Enabled(s, a) && Outside(a)
    ensures var s' := Step(s, a);
      && s'.log == s.log && s'.cp == s.cp && s'.pp == s.pp && s'.pending == s.pending
      && s'.judge == s.judge && s'.policy == s.policy
      && s'.q.requests == s.q.requests && s'.q.responses == s.q.responses
      && (!a.ClientWriter? ==> s'.client == s.client.(done := s'.client.done))
      && (!a.ProviderWriter? ==> s'.provider == s.provider.(done := s'.provider.done))
  {
  }

  /** What each pump reads off its socket. */
  lemma CpReads(s: State, a: CpAction)
    requires CpEnabled(s, a)
    ensures CpStep(s, a).log.readC == s.log.readC + (if a == CpReceives then [s.q.recvC[0]] else [])
    ensures CpStep(s, a).log.readP == s.log.readP
  {
  }

  lemma PpReads(s: State, a: PpAction)
    requires PpEnabled(s, a)
    ensures PpStep(s, a).log.readP == s.log.readP + (if a == PpReceives then [s.q.recvP[0]] else [])
    ensures PpStep(s, a).log.readC == s.log.readC
  {
  }

  lemma FramesRead(s: State, a: Action)
    requires Enabled(s, a)
    ensures Step(s, a).log.readC == s.log.readC + (if a == ByCp(CpReceives) then [s.q.recvC[0]] else [])
    ensures Step(s, a).log.readP == s.log.readP + (if a == ByPp(PpReceives) then [s.q.recvP[0]] else [])
  {
    match a
    case ByCp(c) => CpReads(s, c);
    case ByPp(p) => PpReads(s, p);
    case ByCloser(k) => CloseTouchesNoMessage(s, k);
    case _ => OutsideTouchesNoMessage(s, a);
  }

  /** Contexts never come back to life. */
  lemma ContextsStayDone(s: State, a: Action)
    ensures var s' := Step(s, a);
      && s'.judge == s.judge && s'.policy == s.policy
      && (s.proxyDone ==> s'.proxyDone) && (s.client.done ==> s'.client.done) && (s.provider.done ==> s'.provider.done)
  {
    if Enabled(s, a) {
      match a
      case ByCp(c) => CpFrame(s, c);
      case ByPp(p) => PpFrame(s, p);
      case ByCloser(k) => CloseTouchesNoMessage(s, k);
      case _ => OutsideKeepsDone(s, a);
    }
  }

  lemma OutsideKeepsDone(s: State, a: Action)
    requires Enabled(s, a) && Outside(a)
    ensures var s' := Step(s, a);
      && s'.judge == s.judge && s'.policy == s.policy
      && (s.proxyDone ==> s'.proxyDone) && (s.client.done ==> s'.client.done) && (s.provider.done ==> s'.provider.done)
  {
    if a.ClientWriter? {
      WriterKeepsStream(s.client, a.w);
    } else if a.ProviderWriter? {
      WriterKeepsStream(s.provider, a.w);
    }
  }

  lemma {:induction false} ContextsStayDoneAlong(s: State, actions: seq<Action>)
    ensures var s' := RunFrom(s, actions);
      && s'.judge == s.judge && s'.policy == s.policy
      && (s.proxyDone ==> s'.proxyDone) && (s.client.done ==> s'.client.done) && (s.provider.done ==> s'.provider.done)
  {
    if actions != [] {
      ContextsStayDoneAlong(s, actions[..|actions| - 1]);
      ContextsStayDone(RunFrom(s, actions[..|actions| - 1]), actions[|actions| - 1]);
    }
  }
}
