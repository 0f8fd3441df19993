/** Provider to client: what the client is sent, and where it comes from. */
module RelayResponses {
  import opened Wrappers
  import opened Rpc
  import opened Chains
  import opened Connections
  import opened Subsequences
  import opened Pipelines
  import opened Relay
  import opened RelayControl
  import opened RelayInvariant

  // ------------------------------------------- the two origins of a client message

  function Relayed(outs: seq<Out>): seq<Response> {
    if outs == [] then [] else
      Relayed(outs[..|outs| - 1]) + (if outs[|outs| - 1].FromProvider? then [outs[|outs| - 1].res] else [])
  }

  function MadeHere(outs: seq<Out>): seq<Response> {
    if outs == [] then [] else
      MadeHere(outs[..|outs| - 1]) + (if outs[|outs| - 1].Local? then [outs[|outs| - 1].res] else [])
  }

  lemma {:induction false} SplitConcat(a: seq<Out>, b: seq<Out>)
    ensures Relayed(a + b) == Relayed(a) + Relayed(b)
    ensures MadeHere(a + b) == MadeHere(a) + MadeHere(b)
    decreases |b|
  {
    if b == [] {
      assert a + b == a;
    } else {
      assert (a + b)[..|a + b| - 1] == a + b[..|b| - 1];
      SplitConcat(a, b[..|b| - 1]);
    }
  }

  lemma SplitOne(o: Out)
    ensures Relayed([o]) == (if o.FromProvider? then [o.res] else [])
    ensures MadeHere([o]) == (if o.Local? then [o.res] else [])
  {
    assert [o][..0] == [];
  }

  lemma SplitPush(c: Conn<Out>, o: Out)
    ensures Relayed(Stream(Push(c, o))) == Relayed(Stream(c)) + (if o.FromProvider? then [o.res] else [])
    ensures MadeHere(Stream(Push(c, o))) == MadeHere(Stream(c)) + (if o.Local? then [o.res] else [])
  {
    PushExtendsStream(c, o);
    SplitConcat(Stream(c), [o]);
    SplitOne(o);
  }

  /** What a failed write takes with it. */
  lemma SplitLost(c: Conn<Out>)
    requires c.w.Holding?
    ensures var kept := DataOf(c.wire) + c.send;
      && Stream(WriterStep(c, WriteFails)) == kept
      && Subseq(Relayed(kept), Relayed(Stream(c))) && Subseq(MadeHere(kept), MadeHere(Stream(c)))
  {
    var a, m, b := DataOf(c.wire), [c.w.msg], c.send;
    WriterKeepsStream(c, WriteFails);
    SplitConcat(a, b);
    SplitConcat(a + m, b);
    SplitConcat(a, m);
    SplitOne(c.w.msg);
    SubseqLoseSome(Relayed(a), Relayed(m), Relayed(b));
    SubseqLoseSome(MadeHere(a), MadeHere(m), MadeHere(b));
  }

  lemma SubseqLoseSome<T>(a: seq<T>, m: seq<T>, b: seq<T>)
    ensures Subseq(a + b, a + m + b)
  {
    SubseqReflexive(a);
    SubseqReflexive(b);
    SubseqPrepend(m, b, b);
    SubseqConcat(a, a, b, m + b);
    assert a + (m + b) == a + m + b;
  }

  // --------------------------------------------------------- responses passed on

  function Replies(fs: seq<ProviderFrame>): seq<Response> {
    if fs == [] then [] else Replies(fs[..|fs| - 1]) + ReplyOf(fs[|fs| - 1])
  }

  function ReplyOf(f: ProviderFrame): seq<Response> { if f.ProviderReply? then [f.res] else [] }

  lemma RepliesAppend(fs: seq<ProviderFrame>, f: ProviderFrame)
    ensures Replies(fs + [f]) == Replies(fs) + ReplyOf(f)
  {
    assert (fs + [f])[..|fs|] == fs;
  }

  function LineOf(s: State): Line<Response> {
    Line(Relayed(Stream(s.client)),
         if s.cp.CWrite? then [s.cp.res] else [],
         s.q.responses,
         if s.pp.PSend? then [s.pp.res] else [],
         s.log.abandonedRes)
  }

  function CpMove(s: State, a: CpAction): Move<Response>
    requires CpEnabled(s, a)
  {
    match a
    case CpTakes => Fetch
    case CpFlushes => if s.cp.n == 0 then Stay else Fetch
    case CpWrites => if s.cp.CWrite? then Deliver else Stay
    case CpDrops => if s.cp.CWrite? then DropInPump else Stay
    case _ => Stay
  }

  function PpMove(s: State, a: PpAction): Move<Response>
    requires PpEnabled(s, a)
  {
    match a
    case PpReceives => Accept(ReplyOf(s.q.recvP[0]))
    case PpQueues => Enqueue
    case PpGivesUp => GiveUp
    case _ => Stay
  }

  function MoveOf(s: State, a: Action): Move<Response>
    requires Enabled(s, a)
  {
    match a
    case ByCp(c) => CpMove(s, c)
    case ByPp(p) => PpMove(s, p)
    case ClientWriter(w) =>
      if w == WriteFails then LoseSent(Relayed(DataOf(s.client.wire) + s.client.send)) else Stay
    case _ => Stay
  }

  lemma WriteInHand(s: State)
    requires CpEnabled(s, CpWrites)
    ensures var s' := CpStep(s, CpWrites);
      && InHand(s.cp).value == (if s.cp.CWrite? then FromProvider(s.cp.res) else Local(s.cp.left[0]))
      && s'.client == Push(s.client, InHand(s.cp).value) && !s'.cp.CWrite?
      && s'.q == s.q && s'.pp == s.pp && s'.log == s.log
  {
  }

  lemma CpWriteMoves(s: State)
    requires CpEnabled(s, CpWrites)
    ensures LineOf(CpStep(s, CpWrites)) == Advance(LineOf(s), CpMove(s, CpWrites))
  {
    WriteInHand(s);
    SplitPush(s.client, InHand(s.cp).value);
  }

  lemma CpReceiveMoves(s: State)
    requires CpEnabled(s, CpReceives)
    ensures LineOf(CpStep(s, CpReceives)) == LineOf(s)
  {
    ReceivingFrame(s);
  }

  lemma ReceivingFrame(s: State)
    requires CpEnabled(s, CpReceives)
    ensures var s' := ReceiveFromClient(s);
      && s'.client == s.client && !s'.cp.CWrite? && s'.q.responses == s.q.responses && s'.pp == s.pp
      && s'.log.abandonedRes == s.log.abandonedRes
  {
  }

  lemma CpMoves(s: State, a: CpAction)
    requires CpEnabled(s, a)
    ensures Possible(LineOf(s), CpMove(s, a)) && LineOf(CpStep(s, a)) == Advance(LineOf(s), CpMove(s, a))
  {
    if a.CpWrites? {
      CpWriteMoves(s);
    } else if a.CpReceives? {
      CpReceiveMoves(s);
    }
  }

  /** Whatever the verdict on a reply, it goes into the pump's hand. */
  lemma ReceivingMoves(s: State)
    requires PpEnabled(s, PpReceives)
    ensures var s' := ReceiveFromProvider(s);
      && s'.client == s.client && s'.cp == s.cp && s'.q.responses == s.q.responses
      && s'.log.abandonedRes == s.log.abandonedRes
      && (if s'.pp.PSend? then [s'.pp.res] else []) == ReplyOf(s.q.recvP[0])
  {
  }

  lemma PpMoves(s: State, a: PpAction)
    requires PpEnabled(s, a) && Roles(s)
    ensures Possible(LineOf(s), PpMove(s, a)) && LineOf(PpStep(s, a)) == Advance(LineOf(s), PpMove(s, a))
  {
    if a.PpReceives? {
      ReceivingMoves(s);
    } else {
      OtherPpMoves(s, a);
    }
  }

  lemma OtherPpMoves(s: State, a: PpAction)
    requires PpEnabled(s, a) && Roles(s) && !a.PpReceives?
    ensures Possible(LineOf(s), PpMove(s, a)) && LineOf(PpStep(s, a)) == Advance(LineOf(s), PpMove(s, a))
  {
    if a.PpQueues? {
      SendingEffect(s, a);
    } else if a.PpGivesUp? {
      SendingEffect(s, a);
    }
  }

  /** The provider pump lets go of its response, to the queue or for good. */
  lemma SendingEffect(s: State, a: PpAction)
    requires PpEnabled(s, a) && (a.PpQueues? || a.PpGivesUp?)
    ensures var s' := PpStep(s, a);
      && s'.client == s.client && s'.cp == s.cp && !s'.pp.PSend?
      && s'.q.responses == s.q.responses + (if a.PpQueues? then [s.pp.res] else [])
      && s'.log.abandonedRes == s.log.abandonedRes + (if a.PpGivesUp? then [s.pp.res] else [])
  {
  }

  lemma WriterMoves(s: State, w: WriterAction)
    requires WriterEnabled(s.client, w)
    ensures var a := ClientWriter(w);
      Possible(LineOf(s), MoveOf(s, a)) && LineOf(Step(s, a)) == Advance(LineOf(s), MoveOf(s, a))
  {
    if w == WriteFails {
      WriteFailMoves(s);
    } else {
      WriterStays(s, w);
    }
  }

  lemma WriteFailMoves(s: State)
    requires WriterEnabled(s.client, WriteFails)
    ensures var kept := Relayed(DataOf(s.client.wire) + s.client.send);
      Subseq(kept, LineOf(s).sent) && LineOf(Step(s, ClientWriter(WriteFails))) == LineOf(s).(sent := kept)
  {
    SplitLost(s.client);
    WriterActs(s, WriteFails);
    OtherClient(s, WriterStep(s.client, WriteFails));
  }

  /** The two lines see of the client connection only what it was given. */
  lemma OtherClient(s: State, c: Conn<Out>)
    ensures LineOf(s.(client := c)) == LineOf(s).(sent := Relayed(Stream(c)))
    ensures LocalLine(s.(client := c)) == LocalLine(s).(sent := MadeHere(Stream(c)))
  {
  }

  lemma WriterStays(s: State, w: WriterAction)
    requires WriterEnabled(s.client, w) && w != WriteFails
    ensures LineOf(Step(s, ClientWriter(w))) == LineOf(s)
  {
    WriterKeepsStream(s.client, w);
  }

  lemma CloseMoves(s: State, a: CloseAction)
    requires CloseEnabled(s, a)
    ensures LineOf(CloseStep(s, a)) == LineOf(s)
  {
    CloseTouchesNoMessage(s, a);
    CloseKeepsStreams(s, a);
  }

  lemma OutsideMoves(s: State, a: Action)
    requires Enabled(s, a) && Outside(a) && !a.ClientWriter?
    ensures LineOf(Step(s, a)) == LineOf(s) && MoveOf(s, a).Stay?
  {
    OutsideTouchesNoMessage(s, a);
  }

  lemma StepMoves(s: State, a: Action)
    requires Enabled(s, a) && Roles(s)
    ensures Possible(LineOf(s), MoveOf(s, a)) && LineOf(Step(s, a)) == Advance(LineOf(s), MoveOf(s, a))
  {
    match a
    case ByCp(c) => CpMoves(s, c);
    case ByPp(p) => PpMoves(s, p);
    case ByCloser(k) => CloseMoves(s, k);
    case ClientWriter(w) => WriterMoves(s, w);
    case _ => OutsideMoves(s, a);
  }

  /** Only the end of the client connection loses anything. */
  lemma LossEndsClient(s: State, a: Action)
    requires Enabled(s, a) && Lossy(MoveOf(s, a))
    ensures Step(s, a).client.done
  {
  }

  lemma PpReadsReplies(s: State, a: PpAction)
    requires PpEnabled(s, a)
    ensures Replies(PpStep(s, a).log.readP) == Replies(s.log.readP) + Gained(PpMove(s, a))
  {
    PpReads(s, a);
    if a == PpReceives {
      RepliesAppend(s.log.readP, s.q.recvP[0]);
    }
  }

  lemma OthersRead(s: State, a: Action)
    requires Enabled(s, a) && !a.ByPp?
    ensures Step(s, a).log.readP == s.log.readP && Gained(MoveOf(s, a)) == []
  {
    FramesRead(s, a);
  }

  lemma StepReads(s: State, a: Action)
    requires Enabled(s, a)
    ensures Replies(Step(s, a).log.readP) == Replies(s.log.readP) + Gained(MoveOf(s, a))
  {
    match a
    case ByPp(p) => PpReadsReplies(s, p);
    case _ => OthersRead(s, a);
  }

  lemma {:induction false} RunConserves(judge: ErrorHandler, policy: Policy, actions: seq<Action>)
    ensures var s := Run(judge, policy, actions);
      Conserves(LineOf(s), Replies(s.log.readP), !s.client.done)
  {
    if actions != [] {
      var before := actions[..|actions| - 1];
      var s, a := Run(judge, policy, before), actions[|actions| - 1];
      RunConserves(judge, policy, before);
      RunKeepsInv(judge, policy, before);
      ContextsStayDone(s, a);
      if Enabled(s, a) {
        StepMoves(s, a);
        StepReads(s, a);
        if Lossy(MoveOf(s, a)) { LossEndsClient(s, a); }
        AdvanceConserves(LineOf(s), MoveOf(s, a), Replies(s.log.readP), !s.client.done);
      }
    }
  }

  // ----------------------------------------------------------- rejections made here

  function RejectedOf(policy: Policy, f: ClientFrame): seq<Response> {
    if BadFrame(f) then [] else
      match Rejections(policy, f.reqs)
      case Some(rs) => rs
      case None => []
  }

  function Rejected(policy: Policy, fs: seq<ClientFrame>): seq<Response> {
    if fs == [] then [] else Rejected(policy, fs[..|fs| - 1]) + RejectedOf(policy, fs[|fs| - 1])
  }

  lemma RejectedAppend(policy: Policy, fs: seq<ClientFrame>, f: ClientFrame)
    ensures Rejected(policy, fs + [f]) == Rejected(policy, fs) + RejectedOf(policy, f)
  {
    assert (fs + [f])[..|fs|] == fs;
  }

  /** Rejections skip the channel: a member goes from the client pump's hand straight to the
      connection, which is three moves at once. */
  function LocalLine(s: State): Line<Response> {
    Line(MadeHere(Stream(s.client)), [], [], if s.cp.CReject? then s.cp.left else [], [])
  }

  function Pass(l: Line<Response>, last: Move<Response>): Line<Response> {
    Advance(Advance(Advance(l, Enqueue), Fetch), last)
  }

  lemma PassConserves(l: Line<Response>, last: Move<Response>, input: seq<Response>, exact: bool)
    requires l.pump == [] && l.queue == [] && l.hand != [] && (last == Deliver || last == DropInPump)
    requires Conserves(l, input, exact)
    ensures Conserves(Pass(l, last), input, exact && !Lossy(last))
  {
    assert input + [] == input;
    AdvanceConserves(l, Enqueue, input, exact);
    AdvanceConserves(Advance(l, Enqueue), Fetch, input, exact);
    AdvanceConserves(Advance(Advance(l, Enqueue), Fetch), last, input, exact);
  }

  lemma PassMovesFirst(l: Line<Response>, last: Move<Response>)
    requires l.pump == [] && l.queue == [] && l.hand != [] && l.dropped == [] && (last == Deliver || last == DropInPump)
    ensures Pass(l, last) == Line(l.sent + (if last == Deliver then [l.hand[0]] else []), [], [], l.hand[1..], [])
  {
    var fetched := Advance(Advance(l, Enqueue), Fetch);
    assert fetched.pump == [l.hand[0]] && fetched.queue == [] && fetched.hand == l.hand[1..];
  }

  lemma RejectionInHand(s: State, a: CpAction)
    requires CpEnabled(s, a) && s.cp.CReject? && s.cp.left != [] && (a.CpWrites? || a.CpDrops?)
    ensures InHand(s.cp).value == Local(s.cp.left[0])
    ensures LocalLine(CpStep(s, a)).hand == s.cp.left[1..]
    ensures CpStep(s, a).client == if a.CpWrites? then Push(s.client, Local(s.cp.left[0])) else s.client
  {
  }

  /** Writing or dropping the first rejection in hand. */
  lemma RejectionPasses(s: State, a: CpAction)
    requires CpEnabled(s, a) && s.cp.CReject? && s.cp.left != [] && (a.CpWrites? || a.CpDrops?)
    ensures LocalLine(CpStep(s, a)) == Pass(LocalLine(s), if a.CpWrites? then Deliver else DropInPump)
  {
    RejectionInHand(s, a);
    SplitPush(s.client, Local(s.cp.left[0]));
    PassMovesFirst(LocalLine(s), if a.CpWrites? then Deliver else DropInPump);
  }

  lemma OtherCpSteps(s: State, a: CpAction)
    requires CpEnabled(s, a) && Flow(s) && !a.CpReceives? && !(s.cp.CReject? && (a.CpWrites? || a.CpDrops?))
    ensures LocalLine(CpStep(s, a)) == LocalLine(s)
  {
    if a.CpWrites? {
      SplitPush(s.client, InHand(s.cp).value);
    }
  }

  lemma ReceivingAccepts(s: State)
    requires CpEnabled(s, CpReceives)
    ensures LocalLine(CpStep(s, CpReceives)) == Advance(LocalLine(s), Accept(RejectedOf(s.policy, s.q.recvC[0])))
  {
  }

  function RejectedNow(s: State, a: Action): seq<Response>
    requires Enabled(s, a)
  {
    if a == ByCp(CpReceives) then RejectedOf(s.policy, s.q.recvC[0]) else []
  }

  lemma ReceivingConserves(s: State, input: seq<Response>, exact: bool)
    requires CpEnabled(s, CpReceives) && Conserves(LocalLine(s), input, exact)
    ensures Conserves(LocalLine(CpStep(s, CpReceives)), input + RejectedOf(s.policy, s.q.recvC[0]), exact)
  {
    ReceivingAccepts(s);
    AdvanceConserves(LocalLine(s), Accept(RejectedOf(s.policy, s.q.recvC[0])), input, exact);
  }

  lemma RejectingConserves(s: State, a: CpAction, input: seq<Response>, exact: bool)
    requires CpEnabled(s, a) && s.cp.CReject? && s.cp.left != [] && (a.CpWrites? || a.CpDrops?)
    requires Conserves(LocalLine(s), input, exact)
    ensures Conserves(LocalLine(CpStep(s, a)), input, exact && !a.CpDrops?)
  {
    RejectionPasses(s, a);
    PassConserves(LocalLine(s), if a.CpWrites? then Deliver else DropInPump, input, exact);
  }

  lemma CpLocalConserves(s: State, a: CpAction, input: seq<Response>, exact: bool)
    requires CpEnabled(s, a) && Flow(s) && Conserves(LocalLine(s), input, exact)
    ensures Conserves(LocalLine(CpStep(s, a)), input + RejectedNow(s, ByCp(a)), exact && !s.client.done)
  {
    assert input + [] == input;
    if a.CpReceives? {
      ReceivingConserves(s, input, exact);
    } else if s.cp.CReject? && (a.CpWrites? || a.CpDrops?) {
      RejectingConserves(s, a, input, exact);
    } else {
      OtherCpSteps(s, a);
    }
  }

  lemma WriteFailLosesLocal(s: State)
    requires WriterEnabled(s.client, WriteFails)
    ensures var kept := MadeHere(DataOf(s.client.wire) + s.client.send);
      && Possible(LocalLine(s), LoseSent(kept))
      && LocalLine(Step(s, ClientWriter(WriteFails))) == Advance(LocalLine(s), LoseSent(kept))
  {
    SplitLost(s.client);
    WriterActs(s, WriteFails);
    OtherClient(s, WriterStep(s.client, WriteFails));
  }

  lemma WriteFailConserves(s: State, input: seq<Response>, exact: bool)
    requires WriterEnabled(s.client, WriteFails) && Conserves(LocalLine(s), input, exact)
    ensures var s' := Step(s, ClientWriter(WriteFails)); Conserves(LocalLine(s'), input, exact && !s'.client.done)
  {
    WriteFailLosesLocal(s);
    var m: Move<Response> := LoseSent(MadeHere(DataOf(s.client.wire) + s.client.send));
    assert input + Gained(m) == input;
    AdvanceConserves(LocalLine(s), m, input, exact);
  }

  lemma WriterLocalConserves(s: State, w: WriterAction, input: seq<Response>, exact: bool)
    requires WriterEnabled(s.client, w) && Conserves(LocalLine(s), input, exact)
    ensures var s' := Step(s, ClientWriter(w)); Conserves(LocalLine(s'), input, exact && !s'.client.done)
  {
    WriterKeepsStream(s.client, w);
    if w == WriteFails {
      WriteFailConserves(s, input, exact);
    } else {
      WriterActs(s, w);
      OtherClient(s, WriterStep(s.client, w));
      assert Conserves(LocalLine(s), input, exact && !Step(s, ClientWriter(w)).client.done);
    }
  }

  lemma PpKeepsLocals(s: State, a: PpAction)
    requires PpEnabled(s, a)
    ensures LocalLine(PpStep(s, a)) == LocalLine(s)
  {
    PpFrame(s, a);
  }

  lemma OutsideKeepsLocals(s: State, a: Action)
    requires Enabled(s, a) && Outside(a) && !a.ClientWriter?
    ensures LocalLine(Step(s, a)) == LocalLine(s)
  {
    OutsideTouchesNoMessage(s, a);
  }

  lemma CloseKeepsLocals(s: State, a: CloseAction)
    requires CloseEnabled(s, a)
    ensures LocalLine(CloseStep(s, a)) == LocalLine(s)
  {
    CloseTouchesNoMessage(s, a);
    CloseKeepsStreams(s, a);
  }

  lemma UnmovedConserves(s: State, a: Action, input: seq<Response>, exact: bool)
    requires Enabled(s, a) && a != ByCp(CpReceives) && Conserves(LocalLine(s), input, exact)
    requires LocalLine(Step(s, a)) == LocalLine(s)
    ensures Conserves(LocalLine(Step(s, a)), input + RejectedNow(s, a),
                      exact && !s.client.done && !Step(s, a).client.done)
  {
    assert input + [] == input;
  }

  lemma StepLocalConserves(s: State, a: Action, input: seq<Response>, exact: bool)
    requires Enabled(s, a) && Flow(s) && Conserves(LocalLine(s), input, exact)
    ensures Conserves(LocalLine(Step(s, a)), input + RejectedNow(s, a),
                      exact && !s.client.done && !Step(s, a).client.done)
  {
    match a
    case ByCp(c) => CpLocalConserves(s, c, input, exact);
    case ByPp(p) =>
      PpKeepsLocals(s, p);
      UnmovedConserves(s, a, input, exact);
    case ByCloser(k) =>
      CloseKeepsLocals(s, k);
      UnmovedConserves(s, a, input, exact);
    case ClientWriter(w) =>
      WriterLocalConserves(s, w, input, exact);
      assert input + [] == input;
    case _ =>
      OutsideKeepsLocals(s, a);
      UnmovedConserves(s, a, input, exact);
  }

  lemma StepRejects(s: State, a: Action)
    requires Enabled(s, a)
    ensures Rejected(s.policy, Step(s, a).log.readC) == Rejected(s.policy, s.log.readC) + RejectedNow(s, a)
  {
    FramesRead(s, a);
    if a == ByCp(CpReceives) {
      RejectedAppend(s.policy, s.log.readC, s.q.recvC[0]);
    } else {
      assert s.log.readC + [] == s.log.readC;
    }
  }

  lemma {:induction false} RunConservesRejections(judge: ErrorHandler, policy: Policy, actions: seq<Action>)
    ensures var s := Run(judge, policy, actions);
      Conserves(LocalLine(s), Rejected(policy, s.log.readC), !s.client.done) && s.policy == policy
  {
    if actions != [] {
      var before := actions[..|actions| - 1];
      var s, a := Run(judge, policy, before), actions[|actions| - 1];
      RunConservesRejections(judge, policy, before);
      RunKeepsInv(judge, policy, before);
      ContextsStayDone(s, a);
      if Enabled(s, a) {
        StepRejects(s, a);
        StepLocalConserves(s, a, Rejected(policy, s.log.readC), !s.client.done);
      }
    }
  }

  // ------------------------------------------------------------------- main results

  /** While the client connection lives no response is lost: written, queued, in a hand and in
      the channel they are the provider's frames in order, and the rejections likewise. */
  lemma ResponsesAreConserved(judge: ErrorHandler, policy: Policy, actions: seq<Action>)
    ensures var s := Run(judge, policy, actions);
      !s.client.done ==>
        && Relayed(Stream(s.client)) + ((if s.cp.CWrite? then [s.cp.res] else [])
             + (s.q.responses + ((if s.pp.PSend? then [s.pp.res] else []) + s.log.abandonedRes)))
           == Replies(s.log.readP)
        && MadeHere(Stream(s.client)) + (if s.cp.CReject? then s.cp.left else []) == Rejected(policy, s.log.readC)
        && (!AnyDone(s) ==> s.log.abandonedRes == [])
  {
    RunConserves(judge, policy, actions);
    RunConservesRejections(judge, policy, actions);
    RunKeepsInv(judge, policy, actions);
    LinesAreComplete(Run(judge, policy, actions));
  }

  /** The two lines, written out. */
  lemma LinesAreComplete(s: State)
    ensures All(LineOf(s)) ==
      Relayed(Stream(s.client)) + ((if s.cp.CWrite? then [s.cp.res] else [])
        + (s.q.responses + ((if s.pp.PSend? then [s.pp.res] else []) + s.log.abandonedRes)))
    ensures All(LocalLine(s)) == MadeHere(Stream(s.client)) + (if s.cp.CReject? then s.cp.left else [])
  {
  }

  /** Whatever the client is sent is a provider frame or a rejection made here; each judge is
      an in-order part of its source, and a prefix of it until the client connection ends. */
  lemma ClientReceivesInOrder(judge: ErrorHandler, policy: Policy, actions: seq<Action>)
    ensures var s := Run(judge, policy, actions);
      var relayed, local := Relayed(DataOf(s.client.wire)), MadeHere(DataOf(s.client.wire));
      && Subseq(relayed, Replies(s.log.readP)) && multiset(relayed) <= multiset(Replies(s.log.readP))
      && Subseq(local, Rejected(policy, s.log.readC)) && multiset(local) <= multiset(Rejected(policy, s.log.readC))
      && (!s.client.done ==> relayed <= Replies(s.log.readP) && local <= Rejected(policy, s.log.readC))
  {
    var s := Run(judge, policy, actions);
    RunConserves(judge, policy, actions);
    RunConservesRejections(judge, policy, actions);
    RelayedInOrder(s, Replies(s.log.readP));
    LocalInOrder(s, Rejected(policy, s.log.readC));
  }

  lemma WireSplits(s: State)
    ensures var wire, rest := DataOf(s.client.wire), Held(s.client.w) + s.client.send;
      && Relayed(Stream(s.client)) == Relayed(wire) + Relayed(rest)
      && MadeHere(Stream(s.client)) == MadeHere(wire) + MadeHere(rest)
  {
    var wire := DataOf(s.client.wire);
    var rest := Held(s.client.w) + s.client.send;
    assert Stream(s.client) == wire + rest;
    SplitConcat(wire, rest);
  }

  lemma RelayedInOrder(s: State, replies: seq<Response>)
    requires Conserves(LineOf(s), replies, !s.client.done)
    ensures var relayed := Relayed(DataOf(s.client.wire));
      && Subseq(relayed, replies) && multiset(relayed) <= multiset(replies)
      && (!s.client.done ==> relayed <= replies)
  {
    WireSplits(s);
    FrontConserves(LineOf(s), Relayed(DataOf(s.client.wire)), Relayed(Held(s.client.w) + s.client.send), replies,
                   !s.client.done);
  }

  lemma LocalInOrder(s: State, rejected: seq<Response>)
    requires Conserves(LocalLine(s), rejected, !s.client.done)
    ensures var local := MadeHere(DataOf(s.client.wire));
      && Subseq(local, rejected) && multiset(local) <= multiset(rejected)
      && (!s.client.done ==> local <= rejected)
  {
    WireSplits(s);
    FrontConserves(LocalLine(s), MadeHere(DataOf(s.client.wire)), MadeHere(Held(s.client.w) + s.client.send), rejected,
                   !s.client.done);
  }
}
