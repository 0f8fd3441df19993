/** When the live relay cannot move: either there is nothing to do, or both channels are full
    and each pump waits for the other. */
module RelayStuck {
  import opened Wrappers
  import opened Rpc
  import opened Chains
  import opened Connections
  import opened Relay
  import opened RelayControl
  import opened RelayInvariant

  /** The relay's own steps, writes to the sockets completing. Left out are arriving frames,
      failing reads, writes and pings, and the handler's timer and shutdown signal. */
  predicate Internal(a: Action) {
    match a
    case ClientFrameArrives(_) => false
    case ProviderFrameArrives(_) => false
    case ReadFails(_) => false
    case PrimaryIsBack => false
    case ShutdownBegins => false
    case ClientWriter(w) => w != WriteFails && w != PingFails
    case ProviderWriter(w) => w != WriteFails && w != PingFails
    case _ => true
  }

  ghost predicate Stuck(s: State) { forall a :: Internal(a) ==> !Enabled(s, a) }

  predicate WritersIdle(s: State) {
    s.client.w.Selecting? && s.client.send == [] && s.provider.w.Selecting? && s.provider.send == []
  }

  predicate Idle(s: State) {
    && s.cp == CSelect && s.pp == PSelect && s.h == HWait && WritersIdle(s)
    && s.q.recvC == [] && s.q.recvP == [] && s.q.requests == [] && s.q.responses == []
  }

  predicate DoubleFull(s: State) {
    && s.cp.CSend? && |s.q.requests| == QUEUE
    && s.pp.PSend? && |s.q.responses| == QUEUE
    && s.h == HWait && WritersIdle(s)
  }

  /** A pump has a message in its hands. */
  predicate PumpHolds(s: State) {
    s.cp.CSend? || s.cp.CReject? || s.cp.CWrite? || s.pp.PWrite? || s.pp.PSend?
  }

  /** A Close call never waits alone: it can go on, or the write pump it hands its message
      to can, or the one that closes the same connection is about to end it. */
  lemma CloserCanMove(s: State, th: Thread) returns (a: Action)
    requires Locks(s) && FlushReady(s.client) && FlushReady(s.provider)
    requires ClosingOf(s, th).Some? && ClosingOf(s, th).value.todo != []
    ensures Internal(a) && Enabled(s, a)
    ensures a.ByCloser? || a == ClientWriter(Written) || a == ClientWriter(Next)
      || a == ProviderWriter(Written) || a == ProviderWriter(Next)
  {
    var x := Target(s, th);
    match ClosingOf(s, th).value.stage {
      case Begin => a := ByCloser(CloseBegins(th));
      case Cancel => a := ByCloser(CloseCancels(th));
      case Offer =>
        if Done(s, x) {
          a := ByCloser(CloseSeesDone(th));
        } else if WriterGone(s, x) {
          var u :| PastBegin(s, u, x) && Calling(s, u, Cancel);
          a := ByCloser(CloseCancels(u));
        } else if WriterSelecting(s, x) {
          a := ByCloser(CloseHandsOver(th));
        } else if x == ClientSide {
          a := ClientWriter(if s.client.w.Holding? then Written else Next);
        } else {
          a := ProviderWriter(if s.provider.w.Holding? then Written else Next);
        }
    }
  }

  lemma StuckHandlerWaits(s: State)
    requires Inv(s) && !AnyDone(s) && Stuck(s)
    ensures s.h == HWait
  {
    if s.h.HClose? {
      var a := CloserCanMove(s, HandlerThread);
    }
  }

  lemma StuckWritersIdle(s: State)
    requires Inv(s) && !AnyDone(s) && Stuck(s)
    ensures s.h == HWait && WritersIdle(s)
  {
    StuckHandlerWaits(s);
    assert forall th :: !Calling(s, th, Cancel);
    assert !WriterGone(s, ClientSide) && !WriterGone(s, ProviderSide);
    assert !Enabled(s, ClientWriter(Written)) && !Enabled(s, ClientWriter(Next)) && !Enabled(s, ClientWriter(Take));
    assert !Enabled(s, ProviderWriter(Written)) && !Enabled(s, ProviderWriter(Next))
      && !Enabled(s, ProviderWriter(Take));
  }

  lemma StuckClientPump(s: State)
    requires Inv(s) && !AnyDone(s) && Stuck(s)
    ensures (s.cp == CSelect && s.q.recvC == [] && s.q.responses == []) || (s.cp.CSend? && |s.q.requests| == QUEUE)
  {
    StuckWritersIdle(s);
    assert !Enabled(s, ByCp(CpQueues)) && !Enabled(s, ByCp(CpWrites)) && !Enabled(s, ByCp(CpFlushes))
      && !Enabled(s, ByCp(CpReceives)) && !Enabled(s, ByCp(CpTakes));
    assert InHand(s.cp) == None;
  }

  lemma StuckProviderPump(s: State)
    requires Inv(s) && !AnyDone(s) && Stuck(s)
    ensures (s.pp == PSelect && s.q.recvP == [] && s.q.requests == []) || (s.pp.PSend? && |s.q.responses| == QUEUE)
  {
    StuckWritersIdle(s);
    assert !Enabled(s, ByPp(PpQueues)) && !Enabled(s, ByPp(PpWrites)) && !Enabled(s, ByPp(PpFlushes))
      && !Enabled(s, ByPp(PpReceives)) && !Enabled(s, ByPp(PpTakes));
  }

  lemma StuckPumps(s: State)
    requires Inv(s) && !AnyDone(s) && Stuck(s)
    ensures Idle(s) || DoubleFull(s)
  {
    StuckWritersIdle(s);
    StuckClientPump(s);
    StuckProviderPump(s);
  }

  lemma FullOrIdleIsStuck(s: State)
    requires !AnyDone(s) && (Idle(s) || DoubleFull(s))
    ensures Stuck(s)
  {
    forall a | Internal(a)
      ensures !Enabled(s, a)
    {
    }
  }

  /** A live relay can take no step of its own exactly when it is idle or doubly full. */
  lemma StuckExactly(judge: ErrorHandler, policy: Policy, actions: seq<Action>)
    ensures var s := Run(judge, policy, actions);
      !AnyDone(s) ==>
        && (Stuck(s) <==> Idle(s) || DoubleFull(s))
        && (Stuck(s) && PumpHolds(s) <==> DoubleFull(s))
  {
    RunKeepsInv(judge, policy, actions);
    var s := Run(judge, policy, actions);
    if !AnyDone(s) {
      if Stuck(s) { StuckPumps(s); }
      if Idle(s) || DoubleFull(s) { FullOrIdleIsStuck(s); }
    }
  }

  // --------------------------------------------------------- no way out but the end

  predicate SamePumps(s: State, s': State) {
    s'.cp == s.cp && s'.pp == s.pp && s'.q.requests == s.q.requests && s'.q.responses == s.q.responses
  }

  lemma FullStepStays(s: State, a: Action)
    requires s.cp.CSend? && |s.q.requests| == QUEUE && s.pp.PSend? && |s.q.responses| == QUEUE
    requires !AnyDone(Step(s, a)) && !AnyDone(s)
    ensures SamePumps(s, Step(s, a))
  {
    if Enabled(s, a) && a.ByCloser? {
      CloseTouchesNoMessage(s, a.k);
    } else if Enabled(s, a) && Outside(a) {
      OutsideTouchesNoMessage(s, a);
    }
  }

  /** From a doubly full state, whatever arrives and whoever begins to close, neither pump
      moves and neither channel changes until some context has ended. */
  lemma {:induction false} DoubleFullStays(s: State, actions: seq<Action>)
    requires DoubleFull(s) && !AnyDone(RunFrom(s, actions))
    ensures SamePumps(s, RunFrom(s, actions))
  {
    if actions != [] {
      var before := actions[..|actions| - 1];
      ContextsStayDone(RunFrom(s, before), actions[|actions| - 1]);
      DoubleFullStays(s, before);
      FullStepStays(RunFrom(s, before), actions[|actions| - 1]);
    }
  }

  // ------------------------------------------------------------- and it does happen

  function Times(n: nat, a: Action): seq<Action> { seq(n, _ => a) }

  function Round(res: Response): seq<Action> { [ProviderFrameArrives(ProviderReply(res)), ByPp(PpReceives)] }

  function Rounds(n: nat, res: Response): seq<Action> {
    if n == 0 then [] else Rounds(n - 1, res) + Round(res) + [ByPp(PpQueues)]
  }

  lemma {:induction false} QueueMany(s: State, reqs: seq<Request>, n: nat)
    requires s.cp == CSend(reqs) && s.q.requests == [] && n < |reqs| && n <= QUEUE
    ensures RunFrom(s, Times(n, ByCp(CpQueues))) == s.(cp := CSend(reqs[n..]), q := s.q.(requests := reqs[..n]))
  {
    var done := RunFrom(s, Times(n, ByCp(CpQueues)));
    if n == 0 {
      assert reqs[0..] == reqs;
    } else {
      QueueMany(s, reqs, n - 1);
      assert Times(n, ByCp(CpQueues))[..n - 1] == Times(n - 1, ByCp(CpQueues));
      assert reqs[..n - 1] + [reqs[n - 1]] == reqs[..n];
      assert reqs[n - 1..][1..] == reqs[n..];
    }
  }

  lemma RoundReceives(s: State, res: Response)
    requires s.pp == PSelect && s.q.recvP == [] && !IsError(res)
    ensures var s' := RunFrom(s, Round(res));
      && s'.pp == PSend(res, false) && s'.q == s.q && s'.cp == s.cp && s'.h == s.h
      && s'.client == s.client && s'.provider == s.provider && s'.proxyDone == s.proxyDone
  {
    var s1 := Step(s, Round(res)[0]);
    assert Round(res)[..1] == [Round(res)[0]] && [Round(res)[0]][..0] == [];
    assert RunFrom(s, [Round(res)[0]]) == s1;
    assert s1.q.recvP == [ProviderReply(res)] && s1.q.recvP[1..] == [];
  }

  lemma QueueOne(s: State, res: Response)
    requires s.pp == PSend(res, false) && |s.q.responses| < QUEUE
    ensures Step(s, ByPp(PpQueues)) == s.(pp := PSelect, q := s.q.(responses := s.q.responses + [res]))
  {
  }

  lemma {:induction false} RoundsFill(s: State, res: Response, n: nat)
    requires s.pp == PSelect && s.q.recvP == [] && s.q.responses == [] && !IsError(res) && n <= QUEUE
    ensures var s' := RunFrom(s, Rounds(n, res));
      && s'.pp == PSelect && s'.q == s.q.(responses := s'.q.responses) && |s'.q.responses| == n
      && s'.cp == s.cp && s'.h == s.h
      && s'.client == s.client && s'.provider == s.provider && s'.proxyDone == s.proxyDone
  {
    if n != 0 {
      RoundsFill(s, res, n - 1);
      var t := RunFrom(s, Rounds(n - 1, res));
      RoundReceives(t, res);
      RunFromConcat(s, Rounds(n - 1, res), Round(res));
      var u := RunFrom(s, Rounds(n - 1, res) + Round(res));
      var all := Rounds(n, res);
      assert all[..|all| - 1] == Rounds(n - 1, res) + Round(res);
      assert all[|all| - 1] == ByPp(PpQueues);
      QueueOne(u, res);
    }
  }

  function Flood(req: Request, res: Response): seq<Action> {
    [ClientFrameArrives(ClientBatch(seq(QUEUE + 1, _ => req))), ByCp(CpReceives)]
      + Times(QUEUE, ByCp(CpQueues)) + Rounds(QUEUE, res) + Round(res)
  }

  lemma BatchInHand(judge: ErrorHandler, policy: Policy, req: Request)
    requires Allows(policy, req.methodName)
    ensures var reqs := seq(QUEUE + 1, _ => req);
      var s := Run(judge, policy, [ClientFrameArrives(ClientBatch(reqs)), ByCp(CpReceives)]);
      && s.cp == CSend(reqs) && s.q == Channels([], [], [], []) && s.pp == PSelect && s.h == HWait
      && s.client == Open() && s.provider == Open() && !s.proxyDone
  {
    var reqs := seq(QUEUE + 1, _ => req);
    var s := Initial(judge, policy);
    var two := [ClientFrameArrives(ClientBatch(reqs)), ByCp(CpReceives)];
    var s1 := Step(s, two[0]);
    assert two[..1] == [two[0]] && [two[0]][..0] == [];
    assert RunFrom(s, [two[0]]) == s1;
    assert s1.q.recvC == [ClientBatch(reqs)] && s1.q.recvC[1..] == [];
    assert AllAllowed(policy, reqs);
  }

  /** One batch of 33 requests and 33 frames from the provider are enough to get there. */
  lemma DoubleFullIsReachable(judge: ErrorHandler, policy: Policy, req: Request, res: Response)
    requires Allows(policy, req.methodName) && !IsError(res)
    ensures var s := Run(judge, policy, Flood(req, res)); DoubleFull(s) && !AnyDone(s)
  {
    var init, reqs := Initial(judge, policy), seq(QUEUE + 1, _ => req);
    var first := [ClientFrameArrives(ClientBatch(reqs)), ByCp(CpReceives)];
    var second, third, last := Times(QUEUE, ByCp(CpQueues)), Rounds(QUEUE, res), Round(res);
    BatchInHand(judge, policy, req);
    var s := RunFrom(init, first);
    RunFromConcat(init, first, second);
    QueueMany(s, reqs, QUEUE);
    var t := RunFrom(init, first + second);
    RunFromConcat(init, first + second, third);
    RoundsFill(t, res, QUEUE);
    var u := RunFrom(init, first + second + third);
    RunFromConcat(init, first + second + third, last);
    RoundReceives(u, res);
  }
}
