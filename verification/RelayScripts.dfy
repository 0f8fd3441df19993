/** Runs of the relay written as conversations: any short exchange of requests and replies really
    happens, and so do the misattributions that the bookkeeping by key allows. */
module RelayScripts {
  import opened Wrappers
  import opened Rpc
  import opened Chains
  import opened Connections
  import opened Relay
  import opened RelayAttribution
  import opened RelayAnswers
  import opened RelayMarks

  /** The client sends one request, or the provider one response. */
  datatype Turn = Ask(r: Request) | Reply(res: Response)

  function Asking(r: Request): seq<Action> {
    ([ClientFrameArrives(ClientBatch([r]))] + [ByCp(CpReceives)]) + ([ByCp(CpQueues)] + [ByPp(PpTakes)])
      + ([ByPp(PpWrites)] + [ByPp(PpFlushes)])
  }

  function Replying(res: Response): seq<Action> {
    ([ProviderFrameArrives(ProviderReply(res))] + [ByPp(PpReceives)]) + [ByPp(PpQueues)]
  }

  /** The steps that play a conversation, one turn after the other. */
  function Script(turns: seq<Turn>): seq<Action> {
    if turns == [] then [] else
      Script(turns[..|turns| - 1]) + ActsOf(turns[|turns| - 1])
  }

  function ActsOf(t: Turn): seq<Action> {
    match t
    case Ask(r) => Asking(r)
    case Reply(res) => Replying(res)
  }

  function ExchangeOf(t: Turn): Exchange {
    match t
    case Ask(r) => Sent(ReqKey(r), r.methodName)
    case Reply(res) => Got(res)
  }

  function Exchanged(turns: seq<Turn>): seq<Exchange> {
    seq(|turns|, i requires 0 <= i < |turns| => ExchangeOf(turns[i]))
  }

  /** Nothing under way, and room for more. */
  predicate Ready(s: State, n: nat) {
    && s.cp == CSelect && s.pp == PSelect && s.q.recvC == [] && s.q.recvP == [] && s.q.requests == []
    && |s.q.responses| <= n && |s.provider.send| <= n && s.badRequests == 0
    && !AnyDone(s)
  }

  lemma Then(s: State, actions: seq<Action>, a: Action)
    ensures RunFrom(s, actions + [a]) == Step(RunFrom(s, actions), a)
  {
    assert (actions + [a])[..|actions + [a]| - 1] == actions;
  }

  lemma Two(s: State, a: Action, b: Action)
    ensures RunFrom(s, [a] + [b]) == Step(Step(s, a), b)
  {
    Then(s, [], a);
    assert [] + [a] == [a];
    Then(s, [a], b);
  }

  // ------------------------------------------------------------------ asking

  function WithFrame(s: State, f: ClientFrame): State { s.(q := s.q.(recvC := [f])) }

  lemma FrameArrives(s: State, f: ClientFrame)
    requires s.q.recvC == []
    ensures Step(s, ClientFrameArrives(f)) == WithFrame(s, f)
  {
  }

  lemma FrameTaken(s: State, r: Request)
    requires s.cp == CSelect && s.q.recvC == [ClientBatch([r])] && Allows(s.policy, r.methodName)
    ensures Step(s, ByCp(CpReceives)) == s.(q := s.q.(recvC := []), badRequests := 0, cp := CSend([r]),
                                           log := s.log.(readC := s.log.readC + [ClientBatch([r])]))
  {
    assert s.q.recvC[1..] == [];
  }

  lemma RequestQueued(s: State, r: Request)
    requires s.cp == CSend([r]) && s.q.requests == []
    ensures Step(s, ByCp(CpQueues)) == s.(cp := CSelect, q := s.q.(requests := [r]))
  {
  }

  lemma RequestTaken(s: State, r: Request)
    requires s.pp == PSelect && s.q.requests == [r]
    ensures Step(s, ByPp(PpTakes)) == Track(s, r).(q := s.q.(requests := []), pp := PWrite(r, None))
  {
    assert s.q.requests[1..] == [];
  }

  lemma RequestWritten(s: State, r: Request)
    requires s.pp == PWrite(r, None) && s.q.requests == [] && HasRoom(s.provider)
    ensures Step(s, ByPp(PpWrites)) == s.(provider := Push(s.provider, r), pp := PFlush(0))
  {
  }

  lemma FlushEnds(s: State)
    requires s.pp == PFlush(0)
    ensures Step(s, ByPp(PpFlushes)) == s.(pp := PSelect)
  {
  }

  lemma AskComesIn(s: State, r: Request, n: nat)
    requires Ready(s, n) && Allows(s.policy, r.methodName)
    ensures RunFrom(s, [ClientFrameArrives(ClientBatch([r]))] + [ByCp(CpReceives)])
      == s.(cp := CSend([r]), log := s.log.(readC := s.log.readC + [ClientBatch([r])]))
  {
    Two(s, ClientFrameArrives(ClientBatch([r])), ByCp(CpReceives));
    FrameArrives(s, ClientBatch([r]));
    FrameTaken(WithFrame(s, ClientBatch([r])), r);
  }

  lemma AskGoesOver(s: State, r: Request)
    requires s.cp == CSend([r]) && s.pp == PSelect && s.q.requests == []
    ensures RunFrom(s, [ByCp(CpQueues)] + [ByPp(PpTakes)]) == Track(s, r).(cp := CSelect, pp := PWrite(r, None))
  {
    Two(s, ByCp(CpQueues), ByPp(PpTakes));
    RequestQueued(s, r);
    RequestTaken(s.(cp := CSelect, q := s.q.(requests := [r])), r);
  }

  lemma AskGoesOut(s: State, r: Request)
    requires s.pp == PWrite(r, None) && s.q.requests == [] && HasRoom(s.provider)
    ensures RunFrom(s, [ByPp(PpWrites)] + [ByPp(PpFlushes)]) == s.(provider := Push(s.provider, r), pp := PSelect)
  {
    Two(s, ByPp(PpWrites), ByPp(PpFlushes));
    RequestWritten(s, r);
    FlushEnds(s.(provider := Push(s.provider, r), pp := PFlush(0)));
  }

  lemma AskPlays(s: State, r: Request, n: nat)
    requires Ready(s, n) && n < QUEUE && Allows(s.policy, r.methodName)
    ensures var t := RunFrom(s, Asking(r));
      && Ready(t, n + 1) && t.judge == s.judge && t.policy == s.policy
      && t.log.history == s.log.history + [Sent(ReqKey(r), r.methodName)]
  {
    var into := [ClientFrameArrives(ClientBatch([r]))] + [ByCp(CpReceives)];
    var over, out := [ByCp(CpQueues)] + [ByPp(PpTakes)], [ByPp(PpWrites)] + [ByPp(PpFlushes)];
    AskComesIn(s, r, n);
    var s1 := RunFrom(s, into);
    AskGoesOver(s1, r);
    RunFromConcat(s, into, over);
    var s2 := RunFrom(s1, over);
    AskGoesOut(s2, r);
    RunFromConcat(s, into + over, out);
  }

  // ---------------------------------------------------------------- replying

  function WithReply(s: State, res: Response): State { s.(q := s.q.(recvP := [ProviderReply(res)])) }

  lemma ReplyArrives(s: State, res: Response)
    requires s.q.recvP == []
    ensures Step(s, ProviderFrameArrives(ProviderReply(res))) == WithReply(s, res)
  {
  }

  lemma ReplyRead(s: State, res: Response)
    requires s.pp == PSelect && s.q.recvP == [ProviderReply(res)] && !Fatal(s.judge, res)
    ensures var t := Step(s, ByPp(PpReceives));
      && t == s.(q := s.q.(recvP := []), pp := PSend(res, false), pending := t.pending, log := t.log)
      && t.log.history == s.log.history + [Got(res)]
  {
    assert s.q.recvP[1..] == [];
  }

  lemma ReplyQueued(s: State, res: Response)
    requires s.pp == PSend(res, false) && |s.q.responses| < QUEUE
    ensures Step(s, ByPp(PpQueues)) == s.(pp := PSelect, q := s.q.(responses := s.q.responses + [res]))
  {
  }

  lemma ReplyPlays(s: State, res: Response, n: nat)
    requires Ready(s, n) && n < QUEUE && !Fatal(s.judge, res)
    ensures var t := RunFrom(s, Replying(res));
      && Ready(t, n + 1) && t.judge == s.judge && t.policy == s.policy
      && t.log.history == s.log.history + [Got(res)]
  {
    var arrives := ProviderFrameArrives(ProviderReply(res));
    Two(s, arrives, ByPp(PpReceives));
    ReplyArrives(s, res);
    ReplyRead(WithReply(s, res), res);
    var read := Step(WithReply(s, res), ByPp(PpReceives));
    Then(s, [arrives] + [ByPp(PpReceives)], ByPp(PpQueues));
    ReplyQueued(read, res);
  }

  // ------------------------------------------------------------- conversations

  /** The conversation can be played to its end: its methods are allowed, no reply ends the relay, and
      its messages fit into the queues. */
  predicate Playable(judge: ErrorHandler, policy: Policy, turns: seq<Turn>) {
    && |turns| <= QUEUE
    && forall i :: 0 <= i < |turns| ==>
         if turns[i].Ask? then Allows(policy, turns[i].r.methodName) else !Fatal(judge, turns[i].res)
  }

  lemma TurnPlays(s: State, t: Turn, n: nat)
    requires Ready(s, n) && n < QUEUE
    requires if t.Ask? then Allows(s.policy, t.r.methodName) else !Fatal(s.judge, t.res)
    ensures var u := RunFrom(s, ActsOf(t));
      && Ready(u, n + 1) && u.judge == s.judge && u.policy == s.policy
      && u.log.history == s.log.history + [ExchangeOf(t)]
  {
    match t
    case Ask(r) => AskPlays(s, r, n);
    case Reply(res) => ReplyPlays(s, res, n);
  }

  lemma {:induction false} ScriptPlays(judge: ErrorHandler, policy: Policy, turns: seq<Turn>)
    requires Playable(judge, policy, turns)
    ensures var s := RunFrom(Initial(judge, policy), Script(turns));
      Ready(s, |turns|) && s.judge == judge && s.policy == policy && s.log.history == Exchanged(turns)
  {
    if turns != [] {
      var n, before := |turns| - 1, turns[..|turns| - 1];
      ScriptPlays(judge, policy, before);
      RunFromConcat(Initial(judge, policy), Script(before), ActsOf(turns[n]));
      TurnPlays(RunFrom(Initial(judge, policy), Script(before)), turns[n], n);
      LastTurn(turns);
    }
  }

  lemma LastTurn(turns: seq<Turn>)
    requires turns != []
    ensures Exchanged(turns) == Exchanged(turns[..|turns| - 1]) + [ExchangeOf(turns[|turns| - 1])]
  {
  }

  /** Any playable conversation is a run of the relay, and its history. */
  lemma ConversationHappens(judge: ErrorHandler, policy: Policy, turns: seq<Turn>)
    requires Playable(judge, policy, turns)
    ensures var s := Run(judge, policy, Script(turns));
      s.log.history == Exchanged(turns) && s.log.marks == Marks(judge, Exchanged(turns)) && !AnyDone(s)
  {
    ScriptPlays(judge, policy, turns);
    RunRemembers(judge, policy, Script(turns));
  }

  // -------------------------------------------------- what goes wrong under one key

  /** A refusal and another response under the same key, as some chain judges them. */
  predicate Telling(judge: ErrorHandler, k: string, ok: Response, refusal: Response) {
    k != "" && ResKey(ok) == k == ResKey(refusal) && !IsError(ok) && Unsupported(judge, refusal)
  }

  lemma MarksAfter(judge: ErrorHandler, h: seq<Exchange>, e: Exchange)
    ensures Marks(judge, h + [e]) == Marks(judge, h) + MarkFor(judge, h, e)
  {
    assert (h + [e])[..|h|] == h;
  }

  lemma OwedMore(h: seq<Exchange>, e: Exchange, k: string)
    requires KeyIn(e) == k
    ensures Owed(h + [e], k) == if e.Sent? then Owed(h, k) + 1 else if Owed(h, k) == 0 then 0 else Owed(h, k) - 1
  {
    assert (h + [e])[..|h|] == h;
  }

  /** Two methods under one key, and then a refusal: it is held against the second. */
  lemma TwoMethods(judge: ErrorHandler, k: string, m1: string, m2: string, ok: Response, refusal: Response)
    requires Telling(judge, k, ok, refusal)
    ensures var h := [Sent(k, m1), Sent(k, m2), Got(refusal)];
      Marks(judge, h) == [Lacks(m2)] && MayAnswer(h, 2, 0) && MayAnswer(h, 2, 1)
  {
    var one: seq<Exchange> := [Sent(k, m1)];
    var two := one + [Sent(k, m2)];
    var h := two + [Got(refusal)];
    assert h == [Sent(k, m1), Sent(k, m2), Got(refusal)] && [] + one == one;
    MarksAfter(judge, [], one[0]);
    MarksAfter(judge, one, two[1]);
    MarksAfter(judge, two, h[2]);
    OwedMore([], one[0], k);
    OwedMore(one, two[1], k);
    assert h[..1] == one && h[..2] == two;
  }

  /** One of two equal requests is answered: the other is still owed its answer. */
  lemma OneLeft(judge: ErrorHandler, k: string, m: string, ok: Response, refusal: Response)
    requires Telling(judge, k, ok, refusal)
    ensures var h: seq<Exchange> := [Sent(k, m), Sent(k, m), Got(ok)];
      && Marks(judge, h) == [] && Latest(h, k) == ""
      && Owed(h[..1], k) == 1 && Owed(h[..2], k) == 2 && Owed(h, k) == 1
  {
    var one: seq<Exchange> := [Sent(k, m)];
    var two := one + [Sent(k, m)];
    var h := two + [Got(ok)];
    assert h == [Sent(k, m), Sent(k, m), Got(ok)] && [] + one == one;
    MarksAfter(judge, [], one[0]);
    MarksAfter(judge, one, two[1]);
    MarksAfter(judge, two, h[2]);
    OwedMore([], one[0], k);
    OwedMore(one, two[1], k);
    OwedMore(two, h[2], k);
    assert h[..1] == one && h[..2] == two;
  }

  /** Another method is asked for, and then the refusal comes: it is held against that method. */
  lemma LateRefusal(judge: ErrorHandler, k: string, m1: string, m2: string, ok: Response, refusal: Response)
    requires Telling(judge, k, ok, refusal)
    ensures var h := [Sent(k, m1), Sent(k, m1), Got(ok), Sent(k, m2), Got(refusal)];
      Marks(judge, h) == [Lacks(m2)] && MayAnswer(h, 4, 1) && MayAnswer(h, 4, 3)
  {
    OneLeft(judge, k, m1, ok, refusal);
    var three: seq<Exchange> := [Sent(k, m1), Sent(k, m1), Got(ok)];
    var four := three + [Sent(k, m2)];
    var h := four + [Got(refusal)];
    assert h == [Sent(k, m1), Sent(k, m1), Got(ok), Sent(k, m2), Got(refusal)];
    MarksAfter(judge, three, four[3]);
    MarksAfter(judge, four, h[4]);
    OwedMore(three, four[3], k);
    assert h[..1] == three[..1] && h[..2] == three[..2] && h[..3] == three && h[..4] == four;
  }

  /** The refusal comes at once: it is held against nothing. */
  lemma SecondRefusal(judge: ErrorHandler, k: string, m: string, ok: Response, refusal: Response)
    requires Telling(judge, k, ok, refusal)
    ensures var h := [Sent(k, m), Sent(k, m), Got(ok), Got(refusal)];
      Marks(judge, h) == [Lacks("")] && MayAnswer(h, 3, 0) && forall l: nat :: !OpenAt(h[..3], k, l, 3)
  {
    OneLeft(judge, k, m, ok, refusal);
    var three: seq<Exchange> := [Sent(k, m), Sent(k, m), Got(ok)];
    var h := three + [Got(refusal)];
    assert h == [Sent(k, m), Sent(k, m), Got(ok), Got(refusal)];
    MarksAfter(judge, three, h[3]);
    assert h[..1] == three[..1] && h[..2] == three[..2] && h[..3] == three;
    assert KeyIn(three[2]) == k;
  }

  lemma ThreeTurns(a: Turn, b: Turn, c: Turn)
    ensures Exchanged([a, b, c]) == [ExchangeOf(a), ExchangeOf(b), ExchangeOf(c)]
  {
  }

  lemma FourTurns(a: Turn, b: Turn, c: Turn, d: Turn)
    ensures Exchanged([a, b, c, d]) == [ExchangeOf(a), ExchangeOf(b), ExchangeOf(c), ExchangeOf(d)]
  {
  }

  lemma FiveTurns(a: Turn, b: Turn, c: Turn, d: Turn, e: Turn)
    ensures Exchanged([a, b, c, d, e]) == [ExchangeOf(a), ExchangeOf(b), ExchangeOf(c), ExchangeOf(d), ExchangeOf(e)]
  {
  }

  /** In every such pair of requests and of responses the relay goes wrong, on every chain: first, two
      methods under one key, and the refusal of the one is held against the other. */
  lemma SharedKeyMisattributes(judge: ErrorHandler, policy: Policy, r1: Request, r2: Request, ok: Response,
                               refusal: Response)
    requires Allows(policy, r1.methodName) && Allows(policy, r2.methodName)
    requires ReqKey(r1) == ReqKey(r2) && Telling(judge, ReqKey(r1), ok, refusal)
    ensures var s := Run(judge, policy, Script([Ask(r1), Ask(r2), Reply(refusal)]));
      && s.log.history == [Sent(ReqKey(r1), r1.methodName), Sent(ReqKey(r1), r2.methodName), Got(refusal)]
      && MayAnswer(s.log.history, 2, 0) && s.log.marks == [Lacks(r2.methodName)]
      && (r1.methodName != r2.methodName ==> !MethodsInFlightAgree(s.log.history))
  {
    var k, turns := ReqKey(r1), [Ask(r1), Ask(r2), Reply(refusal)];
    ConversationHappens(judge, policy, turns);
    TwoMethods(judge, k, r1.methodName, r2.methodName, ok, refusal);
    ThreeTurns(turns[0], turns[1], turns[2]);
  }

  /** Second, one of two equal requests is answered, another method is asked for, and then the other is
      refused: the method asked for last takes the blame. */
  lemma LateRefusalMisattributes(judge: ErrorHandler, policy: Policy, r1: Request, r2: Request, ok: Response,
                                 refusal: Response)
    requires Allows(policy, r1.methodName) && Allows(policy, r2.methodName)
    requires ReqKey(r1) == ReqKey(r2) && Telling(judge, ReqKey(r1), ok, refusal)
    ensures var s := Run(judge, policy, Script([Ask(r1), Ask(r1), Reply(ok), Ask(r2), Reply(refusal)]));
      && MayAnswer(s.log.history, 4, 1) && s.log.history[1] == Sent(ReqKey(r1), r1.methodName)
      && s.log.marks == [Lacks(r2.methodName)]
      && (r1.methodName != r2.methodName ==> !MethodsInFlightAgree(s.log.history))
  {
    var k, turns := ReqKey(r1), [Ask(r1), Ask(r1), Reply(ok), Ask(r2), Reply(refusal)];
    ConversationHappens(judge, policy, turns);
    LateRefusal(judge, k, r1.methodName, r2.methodName, ok, refusal);
    FiveTurns(turns[0], turns[1], turns[2], turns[3], turns[4]);
  }

  /** Third, one of two equal requests is answered and the other refused: the refusal is held against
      nothing at all. */
  lemma SecondRefusalIsLost(judge: ErrorHandler, policy: Policy, r: Request, ok: Response, refusal: Response)
    requires Allows(policy, r.methodName) && Telling(judge, ReqKey(r), ok, refusal)
    ensures var s := Run(judge, policy, Script([Ask(r), Ask(r), Reply(ok), Reply(refusal)]));
      && MayAnswer(s.log.history, 3, 0) && s.log.history[0] == Sent(ReqKey(r), r.methodName)
      && s.log.marks == [Lacks("")]
      && (r.methodName != "" ==> !AnswersFollowRequests(s.log.history))
  {
    var k, turns := ReqKey(r), [Ask(r), Ask(r), Reply(ok), Reply(refusal)];
    ConversationHappens(judge, policy, turns);
    SecondRefusal(judge, k, r.methodName, ok, refusal);
    FourTurns(turns[0], turns[1], turns[2], turns[3]);
  }

  /** Such messages exist: two Ethereum methods, a result and a refusal, all with id "a". */
  lemma EthereumTells()
    ensures Telling(HandlerOf(Eth), ReqKey(Request(Text("a"), "eth_call", "")),
                    Response("2.0", Text("a"), Some(JNull), "", None, None),
                    Response("2.0", Text("a"), None, "", None, Some(NewError(-32601, ""))))
    ensures ReqKey(Request(Text("a"), "eth_call", "")) == ReqKey(Request(Text("a"), "eth_getLogs", ""))
    ensures "eth_call" != "eth_getLogs"
  {
    assert "eth_call"[4] == 'c' && "eth_getLogs"[4] == 'g';
  }
}
