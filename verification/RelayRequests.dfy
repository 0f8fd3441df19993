/** Client to provider: what becomes of the requests the client sends. */
module RelayRequests {
  import opened Wrappers
  import opened Rpc
  import opened Chains
  import opened Connections
  import opened Subsequences
  import opened Pipelines
  import opened Relay
  import opened RelayControl
  import opened RelayInvariant

  /** The requests a client frame contributes: all of them or none. */
  function AcceptedOf(policy: Policy, f: ClientFrame): seq<Request> {
    if BadFrame(f) || !AllAllowed(policy, f.reqs) then [] else f.reqs
  }

  function Accepted(policy: Policy, fs: seq<ClientFrame>): seq<Request> {
    if fs == [] then [] else Accepted(policy, fs[..|fs| - 1]) + AcceptedOf(policy, fs[|fs| - 1])
  }

  lemma AcceptedAppend(policy: Policy, fs: seq<ClientFrame>, f: ClientFrame)
    ensures Accepted(policy, fs + [f]) == Accepted(policy, fs) + AcceptedOf(policy, f)
  {
    assert (fs + [f])[..|fs|] == fs;
  }

  function LineOf(s: State): Line<Request> {
    Line(Stream(s.provider),
         if s.pp.PWrite? then [s.pp.req] else [],
         s.q.requests,
         if s.cp.CSend? then s.cp.reqs else [],
         s.log.abandonedReqs)
  }

  function CpMove(s: State, a: CpAction): Move<Request>
    requires CpEnabled(s, a)
  {
    match a
    case CpReceives => Accept(AcceptedOf(s.policy, s.q.recvC[0]))
    case CpQueues => Enqueue
    case CpGivesUp => GiveUp
    case _ => Stay
  }

  function PpMove(s: State, a: PpAction): Move<Request>
    requires PpEnabled(s, a)
  {
    match a
    case PpTakes => Fetch
    case PpFlushes => if s.pp.n == 0 then Stay else Fetch
    case PpWrites => Deliver
    case PpDrops => DropInPump
    case _ => Stay
  }

  function MoveOf(s: State, a: Action): Move<Request>
    requires Enabled(s, a)
  {
    match a
    case ByCp(c) => CpMove(s, c)
    case ByPp(p) => PpMove(s, p)
    case ProviderWriter(w) =>
      if w == WriteFails then LoseSent(DataOf(s.provider.wire) + s.provider.send) else Stay
    case _ => Stay
  }

  lemma CpMoves(s: State, a: CpAction)
    requires CpEnabled(s, a) && Roles(s)
    ensures Possible(LineOf(s), CpMove(s, a)) && LineOf(CpStep(s, a)) == Advance(LineOf(s), CpMove(s, a))
  {
    if a.CpReceives? {
      CpReceiveMoves(s);
    }
  }

  lemma CpReceiveMoves(s: State)
    requires CpEnabled(s, CpReceives)
    ensures var s' := CpStep(s, CpReceives);
      && s'.provider == s.provider && s'.pp == s.pp && s'.q.requests == s.q.requests
      && s'.log.abandonedReqs == s.log.abandonedReqs
      && (if s'.cp.CSend? then s'.cp.reqs else []) == AcceptedOf(s.policy, s.q.recvC[0])
  {
  }

  lemma PpMoves(s: State, a: PpAction)
    requires PpEnabled(s, a)
    ensures Possible(LineOf(s), PpMove(s, a)) && LineOf(PpStep(s, a)) == Advance(LineOf(s), PpMove(s, a))
  {
    if a.PpWrites? {
      PushExtendsStream(s.provider, s.pp.req);
    } else if a.PpReceives? {
      PpReceiveMoves(s);
    }
  }

  lemma PpReceiveMoves(s: State)
    requires PpEnabled(s, PpReceives)
    ensures LineOf(PpStep(s, PpReceives)) == LineOf(s)
  {
  }

  lemma CloseMoves(s: State, a: CloseAction)
    requires CloseEnabled(s, a)
    ensures LineOf(CloseStep(s, a)) == LineOf(s)
  {
    CloseTouchesNoMessage(s, a);
    CloseKeepsStreams(s, a);
  }

  lemma WriterMoves(s: State, w: WriterAction)
    requires WriterEnabled(s.provider, w)
    ensures var a := ProviderWriter(w);
      Possible(LineOf(s), MoveOf(s, a)) && LineOf(Step(s, a)) == Advance(LineOf(s), MoveOf(s, a))
  {
    WriterKeepsStream(s.provider, w);
    if w == WriteFails {
      SubseqLose(DataOf(s.provider.wire), s.provider.w.msg, s.provider.send);
    }
  }

  lemma OutsideMoves(s: State, a: Action)
    requires Enabled(s, a) && Outside(a) && !a.ProviderWriter?
    ensures LineOf(Step(s, a)) == LineOf(s) && MoveOf(s, a).Stay?
  {
    OutsideTouchesNoMessage(s, a);
  }

  /** Each step of the relay is a move of the line, which forgets the goroutines. */
  lemma StepMoves(s: State, a: Action)
    requires Enabled(s, a) && Roles(s)
    ensures Possible(LineOf(s), MoveOf(s, a)) && LineOf(Step(s, a)) == Advance(LineOf(s), MoveOf(s, a))
  {
    match a
    case ByCp(c) => CpMoves(s, c);
    case ByPp(p) => PpMoves(s, p);
    case ByCloser(k) => CloseMoves(s, k);
    case ProviderWriter(w) => WriterMoves(s, w);
    case _ => OutsideMoves(s, a);
  }

  /** Only the end of the provider connection loses anything. */
  lemma LossEndsProvider(s: State, a: Action)
    requires Enabled(s, a) && Lossy(MoveOf(s, a))
    ensures Step(s, a).provider.done
  {
  }

  lemma CpAccepts(s: State, a: CpAction)
    requires CpEnabled(s, a)
    ensures Accepted(s.policy, CpStep(s, a).log.readC) == Accepted(s.policy, s.log.readC) + Gained(CpMove(s, a))
  {
    CpReads(s, a);
    if a == CpReceives {
      AcceptedAppend(s.policy, s.log.readC, s.q.recvC[0]);
    }
  }

  lemma OthersAccept(s: State, a: Action)
    requires Enabled(s, a) && !a.ByCp?
    ensures Step(s, a).log.readC == s.log.readC && Gained(MoveOf(s, a)) == []
  {
    FramesRead(s, a);
  }

  lemma StepAccepts(s: State, a: Action)
    requires Enabled(s, a)
    ensures Accepted(s.policy, Step(s, a).log.readC) == Accepted(s.policy, s.log.readC) + Gained(MoveOf(s, a))
  {
    match a
    case ByCp(c) => CpAccepts(s, c);
    case _ => OthersAccept(s, a);
  }

  lemma {:induction false} RunConserves(judge: ErrorHandler, policy: Policy, actions: seq<Action>)
    ensures var s := Run(judge, policy, actions);
      Conserves(LineOf(s), Accepted(policy, s.log.readC), !s.provider.done) && s.policy == policy
  {
    if actions != [] {
      var before := actions[..|actions| - 1];
      var s, a := Run(judge, policy, before), actions[|actions| - 1];
      RunConserves(judge, policy, before);
      RunKeepsInv(judge, policy, before);
      ContextsStayDone(s, a);
      if Enabled(s, a) {
        StepMoves(s, a);
        StepAccepts(s, a);
        if Lossy(MoveOf(s, a)) { LossEndsProvider(s, a); }
        AdvanceConserves(LineOf(s), MoveOf(s, a), Accepted(policy, s.log.readC), !s.provider.done);
      }
    }
  }

  /** While the three contexts live, what the provider was sent, its connection's queue, the
      pumps' hands and the channel make up exactly the accepted client batches, flattened, in
      order. Only the client pump's leftovers are missing once another context has ended. */
  lemma RequestsAreConserved(judge: ErrorHandler, policy: Policy, actions: seq<Action>)
    ensures var s := Run(judge, policy, actions);
      && (!s.provider.done ==>
        Stream(s.provider) + ((if s.pp.PWrite? then [s.pp.req] else [])
          + (s.q.requests + ((if s.cp.CSend? then s.cp.reqs else []) + s.log.abandonedReqs)))
        == Accepted(policy, s.log.readC))
      && (!AnyDone(s) ==> s.log.abandonedReqs == [])
  {
    RunConserves(judge, policy, actions);
    RunKeepsInv(judge, policy, actions);
  }

  /** Until the provider connection ends, whatever happens to the client, the provider has
      received a prefix of the accepted requests; after any teardown still an in-order part
      of them, with nothing twice and nothing of its own. */
  lemma ProviderReceivesInOrder(judge: ErrorHandler, policy: Policy, actions: seq<Action>)
    ensures var s := Run(judge, policy, actions);
      var wire, all := DataOf(s.provider.wire), Accepted(policy, s.log.readC);
      && Subseq(wire, all)
      && multiset(wire) <= multiset(all)
      && (!s.provider.done ==> wire <= all)
  {
    var s := Run(judge, policy, actions);
    RunConserves(judge, policy, actions);
    var wire := DataOf(s.provider.wire);
    var rest := Held(s.provider.w) + s.provider.send;
    assert Stream(s.provider) == wire + rest;
    FrontConserves(LineOf(s), wire, rest, Accepted(policy, s.log.readC), !s.provider.done);
  }
}
