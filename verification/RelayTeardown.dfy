/** Once any context has ended the whole relay comes to its end by itself, on every way it may take. */
module RelayTeardown {
  import opened Wrappers
  import opened Rpc
  import opened Chains
  import opened Connections
  import opened Relay
  import opened RelayControl
  import opened RelayInvariant
  import opened RelayStuck

  /** Every goroutine has returned and every context has ended. */
  predicate Ended(s: State) {
    && s.proxyDone && s.client.done && s.provider.done
    && s.cp == CExit && s.pp == PExit && s.h == HExit && s.client.w == Exited && s.provider.w == Exited
  }

  // ------------------------------------------------------------ how much is left to do

  /** Every step of the relay's own uses up some of this: a message costs more the further it has to go,
      and a goroutine more the longer it may have to close connections. */
  function Work(s: State): nat {
    FramesWork(s.q.recvC) + 8 * |s.q.recvP| + 6 * |s.q.requests| + 6 * |s.q.responses|
      + CpWork(s.cp) + PpWork(s.pp) + HWork(s.h) + WriterWork(s.client) + WriterWork(s.provider)
  }

  function FramesWork(fs: seq<ClientFrame>): nat {
    if fs == [] then 0 else FrameWork(fs[0]) + FramesWork(fs[1..])
  }

  function FrameWork(f: ClientFrame): nat { if f.ClientBatch? then 7 * |f.reqs| + 1 else 1 }

  function ClosingWork(k: Closing): nat {
    4 * |k.todo| + (match k.stage case Begin => 3 case Offer => 2 case Cancel => 1)
  }

  function WriterWork<T>(c: Conn<T>): nat {
    3 * |c.send| + match c.w case Selecting => 1 case Flushing(_) => 2 case Holding(_, _) => 3 case Exited => 0
  }

  function CpWork(cp: ClientPump): nat {
    match cp
    case CSelect => 12
    case CReject(left) => 12 + 4 * |left|
    case CSend(reqs) => 12 + 7 * |reqs|
    case CFlush(_) => 13
    case CWrite(_, _) => 17
    case CClose(k) => ClosingWork(k)
    case CExit => 0
  }

  function PpWork(pp: ProviderPump): nat {
    match pp
    case PSelect => 12
    case PSend(_, _) => 19
    case PFlush(_) => 13
    case PWrite(_, _) => 17
    case PClose(k) => ClosingWork(k)
    case PExit => 0
  }

  function HWork(h: Handler): nat {
    match h
    case HWait => 12
    case HClose(k) => ClosingWork(k)
    case HExit => 0
  }

  lemma CpWorks(s: State, a: CpAction)
    requires CpEnabled(s, a)
    ensures Work(CpStep(s, a)) < Work(s)
  {
    if a.CpReceives? {
      CpReceiveWorks(s);
    }
  }

  lemma CpReceiveWorks(s: State)
    requires CpEnabled(s, CpReceives)
    ensures Work(ReceiveFromClient(s)) < Work(s)
  {
    var f, s' := s.q.recvC[0], ReceiveFromClient(s);
    assert FramesWork(s.q.recvC) == FrameWork(f) + FramesWork(s.q.recvC[1..]);
    assert s'.q == s.q.(recvC := s.q.recvC[1..]);
    assert CpWork(s'.cp) < 12 + FrameWork(f);
  }

  lemma PpWorks(s: State, a: PpAction)
    requires PpEnabled(s, a)
    ensures Work(PpStep(s, a)) < Work(s)
  {
    if a.PpReceives? {
      PpReceiveWorks(s);
    }
  }

  lemma PpReceiveWorks(s: State)
    requires PpEnabled(s, PpReceives)
    ensures Work(ReceiveFromProvider(s)) < Work(s)
  {
    ReceivingFrame(s);
    assert ReceiveFromProvider(s).q == s.q.(recvP := s.q.recvP[1..]);
  }

  lemma CloseWorks(s: State, a: CloseAction)
    requires CloseEnabled(s, a)
    ensures Work(CloseStep(s, a)) < Work(s)
  {
    CloseTouchesNoMessage(s, a);
    WritersInClose(s, a);
    assert ClosingWork(Progress(s, a)) < ClosingWork(ClosingOf(s, a.th).value);
    ClosersApart(s, a);
  }

  lemma WritersInClose(s: State, a: CloseAction)
    requires CloseEnabled(s, a)
    ensures WriterWork(CloseStep(s, a).client) <= WriterWork(s.client)
    ensures WriterWork(CloseStep(s, a).provider) <= WriterWork(s.provider)
  {
    CloseTouchesNoMessage(s, a);
    CloseKeepsWriters(s, a);
  }

  lemma ClosersApart(s: State, a: CloseAction)
    requires CloseEnabled(s, a)
    ensures a.th != ClientPumpThread ==> CloseStep(s, a).cp == s.cp
    ensures a.th != ProviderPumpThread ==> CloseStep(s, a).pp == s.pp
    ensures a.th != HandlerThread ==> CloseStep(s, a).h == s.h
    ensures var k := Progress(s, a);
      match a.th
      case ClientPumpThread => CloseStep(s, a).cp == if k.todo == [] then CExit else CClose(k)
      case ProviderPumpThread => CloseStep(s, a).pp == if k.todo == [] then PExit else PClose(k)
      case HandlerThread => CloseStep(s, a).h == if k.todo == [] then HExit else HClose(k)
  {
  }

  lemma WriterWorks(s: State, w: WriterAction)
    requires w != WriteFails && w != PingFails
    ensures WriterEnabled(s.client, w) ==> Work(Step(s, ClientWriter(w))) < Work(s)
    ensures WriterEnabled(s.provider, w) ==> Work(Step(s, ProviderWriter(w))) < Work(s)
  {
    WriterActs(s, w);
    OneWriterWorks(s.client, w);
    OneWriterWorks(s.provider, w);
  }

  lemma OneWriterWorks<T>(c: Conn<T>, w: WriterAction)
    requires w != WriteFails && w != PingFails
    ensures WriterEnabled(c, w) ==> WriterWork(WriterStep(c, w)) < WriterWork(c)
  {
  }

  lemma HandlerWorks(s: State, a: Action)
    requires Enabled(s, a) && (a.HSeesProxyDone? || a.HSeesClientDone? || a.HSeesProviderDone?)
    ensures Work(Step(s, a)) < Work(s)
  {
    assert Step(s, a) == s.(h := Step(s, a).h);
  }

  /** Every step of the relay's own, in any state whatever, uses up work. */
  lemma StepWorks(s: State, a: Action)
    requires Internal(a) && Enabled(s, a)
    ensures Work(Step(s, a)) < Work(s)
  {
    match a
    case ByCp(c) => CpWorks(s, c);
    case ByPp(p) => PpWorks(s, p);
    case ByCloser(k) => CloseWorks(s, k);
    case ClientWriter(w) => WriterWorks(s, w);
    case ProviderWriter(w) => WriterWorks(s, w);
    case _ => HandlerWorks(s, a);
  }

  // -------------------------------------------------------------- the next step to take

  lemma NextClosing(s: State, x: Side) returns (a: Action)
    requires Inv(s) && AnyDone(s) && !Done(s, x)
    ensures Internal(a) && Enabled(s, a)
  {
    if s.h == HWait && !s.proxyDone {
      a := if s.client.done then HSeesClientDone else HSeesProviderDone;
    } else {
      var th := Closer(s, x);
      a := CloserCanMove(s, th);
    }
  }

  /** Somebody is closing the connection, or has it on its list. */
  lemma Closer(s: State, x: Side) returns (th: Thread)
    requires Locks(s) && Cover(s) && !Done(s, x) && (s.proxyDone || s.h != HWait)
    ensures ClosingOf(s, th).Some? && ClosingOf(s, th).value.todo != []
  {
    if Closed(s, x) {
      th :| PastBegin(s, th, x);
    } else {
      th :| Listed(s, th, x);
    }
  }

  lemma NextInClose(s: State, th: Thread) returns (a: Action)
    requires s.client.done && s.provider.done
    requires ClosingOf(s, th).Some? && ClosingOf(s, th).value.todo != []
    ensures Internal(a) && Enabled(s, a)
  {
    a := ByCloser(match ClosingOf(s, th).value.stage
      case Begin => CloseBegins(th)
      case Offer => CloseSeesDone(th)
      case Cancel => CloseCancels(th));
  }

  lemma NextForClientPump(s: State) returns (a: Action)
    requires Inv(s) && s.client.done && s.provider.done && s.cp != CExit
    ensures Internal(a) && Enabled(s, a)
  {
    if s.cp.CClose? {
      a := NextInClose(s, ClientPumpThread);
    } else {
      a := ByCp(match s.cp
        case CSelect => CpSeesDone
        case CSend(_) => CpGivesUp
        case CFlush(_) => CpFlushes
        case _ => CpDrops);
    }
  }

  lemma NextForProviderPump(s: State) returns (a: Action)
    requires Inv(s) && s.client.done && s.provider.done && s.pp != PExit
    ensures Internal(a) && Enabled(s, a)
  {
    if s.pp.PClose? {
      a := NextInClose(s, ProviderPumpThread);
    } else {
      a := ByPp(match s.pp
        case PSelect => PpSeesDone
        case PSend(_, _) => PpGivesUp
        case PFlush(_) => PpFlushes
        case _ => PpDrops);
    }
  }

  lemma NextForHandler(s: State) returns (a: Action)
    requires Inv(s) && s.client.done && s.provider.done && s.h != HExit
    ensures Internal(a) && Enabled(s, a)
  {
    if s.h == HWait {
      a := HSeesClientDone;
    } else {
      a := NextInClose(s, HandlerThread);
    }
  }

  lemma NextForWriters(s: State) returns (a: Action)
    requires Inv(s) && s.client.done && s.provider.done && !(s.client.w == Exited && s.provider.w == Exited)
    ensures Internal(a) && Enabled(s, a)
  {
    if s.client.w != Exited {
      a := ClientWriter(if s.client.w.Selecting? then SeeDone else if s.client.w.Holding? then Written else Next);
    } else {
      a := ProviderWriter(if s.provider.w.Selecting? then SeeDone else if s.provider.w.Holding? then Written else Next);
    }
  }

  /** Every wait point has a way out: after any context has ended, somebody can always take a
      step of the relay's own, until everything has ended. */
  lemma NextTowardsEnd(s: State) returns (a: Action)
    requires Inv(s) && AnyDone(s) && !Ended(s)
    ensures Internal(a) && Enabled(s, a)
  {
    if !s.client.done {
      a := NextClosing(s, ClientSide);
    } else if !s.provider.done {
      a := NextClosing(s, ProviderSide);
    } else if s.cp != CExit {
      a := NextForClientPump(s);
    } else if s.pp != PExit {
      a := NextForProviderPump(s);
    } else if s.h != HExit {
      a := NextForHandler(s);
    } else {
      a := NextForWriters(s);
    }
  }

  lemma EndedIsStuck(s: State)
    requires Ended(s)
    ensures Stuck(s)
  {
    forall a | Internal(a)
      ensures !Enabled(s, a)
    {
    }
  }

  // ----------------------------------------------------------------- runs on its own

  /** Steps of the relay's own, each of which can be taken when it comes. */
  ghost predicate Busy(s: State, actions: seq<Action>) {
    forall i :: 0 <= i < |actions| ==> Internal(actions[i]) && Enabled(RunFrom(s, actions[..i]), actions[i])
  }

  /** Left to itself the relay comes to a halt, whatever its goroutines do and in whatever order. */
  lemma {:induction false} LeftAloneItHalts(s: State, actions: seq<Action>)
    requires Busy(s, actions)
    ensures |actions| + Work(RunFrom(s, actions)) <= Work(s)
  {
    if actions != [] {
      var n, before := |actions| - 1, actions[..|actions| - 1];
      forall i | 0 <= i < n
        ensures Internal(before[i]) && Enabled(RunFrom(s, before[..i]), before[i])
      {
        assert before[..i] == actions[..i];
      }
      LeftAloneItHalts(s, before);
      StepWorks(RunFrom(s, before), actions[n]);
    }
  }

  lemma {:induction false} StaysSound(s: State, actions: seq<Action>)
    requires Inv(s)
    ensures Inv(RunFrom(s, actions)) && (AnyDone(s) ==> AnyDone(RunFrom(s, actions)))
  {
    if actions != [] {
      var before := actions[..|actions| - 1];
      StaysSound(s, before);
      StepKeepsInv(RunFrom(s, before), actions[|actions| - 1]);
      ContextsStayDone(RunFrom(s, before), actions[|actions| - 1]);
    }
  }

  lemma StepKeepsInv(s: State, a: Action)
    requires Inv(s)
    ensures Inv(Step(s, a))
  {
    StepKeepsFlow(s, a);
    StepKeepsRoles(s, a);
    StepKeepsLocks(s, a);
    StepKeepsCover(s, a);
  }

  /** Once any context has ended, every way in which the relay goes on by itself ends everything: it has at
      most so many steps, and it can go no further exactly when all goroutines have returned and
      both connections are closed. */
  lemma TeardownAlwaysFinishes(judge: ErrorHandler, policy: Policy, actions: seq<Action>, more: seq<Action>)
    requires AnyDone(Run(judge, policy, actions)) && Busy(Run(judge, policy, actions), more)
    ensures var s := Run(judge, policy, actions);
      |more| <= Work(s) && (Stuck(RunFrom(s, more)) <==> Ended(RunFrom(s, more)))
  {
    RunKeepsInv(judge, policy, actions);
    var s := Run(judge, policy, actions);
    LeftAloneItHalts(s, more);
    StaysSound(s, more);
    EndingMoves(RunFrom(s, more));
  }

  lemma {:induction false} EndFrom(s: State) returns (more: seq<Action>)
    requires Inv(s) && AnyDone(s)
    ensures Busy(s, more) && Ended(RunFrom(s, more))
    decreases Work(s)
  {
    if Ended(s) {
      more := [];
    } else {
      var a := NextTowardsEnd(s);
      StepWorks(s, a);
      StepKeepsInv(s, a);
      ContextsStayDone(s, a);
      var rest := EndFrom(Step(s, a));
      more := [a] + rest;
      OneThenMore(s, a, rest);
    }
  }

  /** And there is such a way, from any such state to the end. */
  lemma TeardownCanAlwaysFinish(judge: ErrorHandler, policy: Policy, actions: seq<Action>)
    ensures var s := Run(judge, policy, actions);
      AnyDone(s) ==> exists more :: Busy(s, more) && |more| <= Work(s) && Ended(RunFrom(s, more))
  {
    RunKeepsInv(judge, policy, actions);
    var s := Run(judge, policy, actions);
    if AnyDone(s) {
      var more := EndFrom(s);
      LeftAloneItHalts(s, more);
    }
  }

  lemma OneThenMore(s: State, a: Action, rest: seq<Action>)
    requires Internal(a) && Enabled(s, a) && Busy(Step(s, a), rest)
    ensures Busy(s, [a] + rest) && RunFrom(s, [a] + rest) == RunFrom(Step(s, a), rest)
  {
    assert [a][..0] == [] && RunFrom(s, [a]) == Step(s, a);
    RunFromConcat(s, [a], rest);
    var all := [a] + rest;
    forall i | 0 <= i < |all|
      ensures Internal(all[i]) && Enabled(RunFrom(s, all[..i]), all[i])
    {
      if i > 0 {
        assert all[..i] == [a] + rest[..i - 1];
        RunFromConcat(s, [a], rest[..i - 1]);
      } else {
        assert all[..i] == [];
      }
    }
  }

  /** While all contexts live it comes to rest as well: idle, or doubly full. */
  lemma LiveRelaySettles(judge: ErrorHandler, policy: Policy, actions: seq<Action>, more: seq<Action>)
    requires Busy(Run(judge, policy, actions), more) && !AnyDone(Run(judge, policy, actions + more))
    ensures |more| <= Work(Run(judge, policy, actions))
    ensures var t := Run(judge, policy, actions + more); Stuck(t) <==> Idle(t) || DoubleFull(t)
  {
    LeftAloneItHalts(Run(judge, policy, actions), more);
    StuckExactly(judge, policy, actions + more);
  }

  /** A connection that is still open while another context has ended is being closed, is on
      the list of a goroutine that will close it, or the handler is about to see to it. */
  lemma NobodyIsLeftOpen(judge: ErrorHandler, policy: Policy, actions: seq<Action>, x: Side)
    ensures var s := Run(judge, policy, actions);
      AnyDone(s) && !Done(s, x) ==>
        || (exists th :: PastBegin(s, th, x))
        || (exists th :: Listed(s, th, x))
        || (s.h == HWait && (Enabled(s, HSeesClientDone) || Enabled(s, HSeesProviderDone)))
  {
    RunKeepsInv(judge, policy, actions);
  }

  // ------------------------------------------------------------------ what brings it about

  predicate Breaks<T>(c: Conn<T>, w: WriterAction) {
    (w == WriteFails && c.w.Holding?) || (w == PingFails && c.w.Selecting?)
  }

  /** What the world can do to a relay: break a read at any time, a write or a ping when one is made, or
      tell a waiting handler that the primary is back or that a shutdown has begun. */
  predicate Disturbs(s: State, a: Action) {
    match a
    case ReadFails(_) => true
    case ClientWriter(w) => Breaks(s.client, w)
    case ProviderWriter(w) => Breaks(s.provider, w)
    case PrimaryIsBack => s.h == HWait
    case ShutdownBegins => s.h == HWait
    case _ => false
  }

  /** A context has ended, or the handler is about to see to that. */
  predicate Ending(s: State) { AnyDone(s) || s.h.HClose? }

  lemma DisturbedIsEnding(s: State, a: Action)
    requires Disturbs(s, a)
    ensures Ending(Step(s, a))
  {
  }

  lemma EndingStays(s: State, a: Action)
    requires Ending(s)
    ensures Ending(Step(s, a))
  {
    if AnyDone(s) {
      ContextsStayDone(s, a);
    } else if Enabled(s, a) {
      match a
      case ByCp(c) => CpFrame(s, c);
      case ByPp(p) => PpFrame(s, p);
      case ByCloser(k) => if k.th != HandlerThread { ClosersApart(s, k); }
      case _ =>
    }
  }

  lemma {:induction false} EndingLasts(s: State, actions: seq<Action>)
    requires Ending(s)
    ensures Ending(RunFrom(s, actions))
  {
    if actions != [] {
      EndingLasts(s, actions[..|actions| - 1]);
      EndingStays(RunFrom(s, actions[..|actions| - 1]), actions[|actions| - 1]);
    }
  }

  lemma EndingFinishes(s: State, more: seq<Action>)
    requires Inv(s) && Ending(s) && Busy(s, more)
    ensures |more| <= Work(s) && (Stuck(RunFrom(s, more)) <==> Ended(RunFrom(s, more)))
  {
    LeftAloneItHalts(s, more);
    StaysSound(s, more);
    EndingLasts(s, more);
    EndingMoves(RunFrom(s, more));
  }

  lemma EndingMoves(s: State)
    requires Inv(s) && Ending(s)
    ensures Stuck(s) <==> Ended(s)
  {
    if Ended(s) {
      EndedIsStuck(s);
    } else if AnyDone(s) {
      var a := NextTowardsEnd(s);
    } else {
      var a := CloserCanMove(s, HandlerThread);
    }
  }

  /** Each of those ends the relay, in whatever state it finds it: however it goes on by itself, it has at most
      so many steps, and it can go no further exactly when everything has ended. */
  lemma DisturbanceEndsIt(judge: ErrorHandler, policy: Policy, actions: seq<Action>, a: Action, more: seq<Action>)
    requires Disturbs(Run(judge, policy, actions), a) && Busy(Step(Run(judge, policy, actions), a), more)
    ensures var s := Step(Run(judge, policy, actions), a);
      |more| <= Work(s) && (Stuck(RunFrom(s, more)) <==> Ended(RunFrom(s, more)))
  {
    RunKeepsInv(judge, policy, actions);
    StepKeepsInv(Run(judge, policy, actions), a);
    DisturbedIsEnding(Run(judge, policy, actions), a);
    EndingFinishes(Step(Run(judge, policy, actions), a), more);
  }
}
