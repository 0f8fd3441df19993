/** One turn of a pump empties its channel: all that waits when the first message has been written goes on
    before the pump selects again. */
module RelayFlush {
  import opened Wrappers
  import opened Rpc
  import opened Chains
  import opened Connections
  import opened Relay

  function FromProviders(rs: seq<Response>): seq<Out> { seq(|rs|, i requires 0 <= i < |rs| => FromProvider(rs[i])) }

  /** The client pump counts down n messages, writing each. */
  function ClientFlush(n: nat): seq<Action> {
    if n == 0 then [ByCp(CpFlushes)] else [ByCp(CpFlushes), ByCp(CpWrites)] + ClientFlush(n - 1)
  }

  function ProviderFlush(n: nat): seq<Action> {
    if n == 0 then [ByPp(PpFlushes)] else [ByPp(PpFlushes), ByPp(PpWrites)] + ProviderFlush(n - 1)
  }

  // -------------------------------------------------------------- towards the client

  /** A way to run the relay, action by action. */
  type Runner = (State, seq<Action>) -> State

  ghost predicate Composes(go: Runner) { forall s, x, y {:trigger go(s, x + y)} :: go(s, x + y) == go(go(s, x), y) }

  const RUN: Runner := (s: State, actions: seq<Action>) => RunFrom(s, actions)

  lemma RunComposes()
    ensures Composes(RUN)
  {
    forall s: State, x: seq<Action>, y: seq<Action>
      ensures RunFrom(s, x + y) == RunFrom(RunFrom(s, x), y)
    {
      RunFromConcat(s, x, y);
    }
  }

  lemma One(s: State, a: Action)
    ensures RunFrom(s, [a]) == Step(s, a)
  {
    assert [a][..0] == [];
  }

  lemma Two(s: State, a: Action, b: Action)
    ensures RunFrom(s, [a, b]) == Step(Step(s, a), b)
  {
    assert [a, b][..1] == [a];
    One(s, a);
  }

  /** The client pump after handing on the first n responses, and where it is then. */
  function Answered(s: State, n: nat, cp: ClientPump): State
    requires n <= |s.q.responses|
  {
    s.(client := s.client.(send := s.client.send + FromProviders(s.q.responses[..n])),
       q := s.q.(responses := s.q.responses[n..]), cp := cp)
  }

  lemma AnsweredMore(s: State, n: nat, cp: ClientPump)
    requires 0 < n <= |s.q.responses|
    ensures Answered(Answered(s, 1, CFlush(n - 1)), n - 1, cp) == Answered(s, n, cp)
  {
    var rs := s.q.responses;
    assert rs[1..][n - 1..] == rs[n..];
    assert FromProviders(rs[..1]) + FromProviders(rs[1..][..n - 1]) == FromProviders(rs[..n]);
    assert (s.client.send + FromProviders(rs[..1])) + FromProviders(rs[1..][..n - 1])
        == s.client.send + (FromProviders(rs[..1]) + FromProviders(rs[1..][..n - 1]));
  }

  predicate CanAnswer(s: State, n: nat) { n <= |s.q.responses| && |s.client.send| + n <= QUEUE }

  predicate Answering(s: State, n: nat) { s.cp == CFlush(n) && CanAnswer(s, n) }

  /** How the client pump flushes: one more of what it counted, or nothing left of it. */
  ghost predicate FlushesAnswers(go: Runner) {
    forall s: State, n: nat :: Answering(s, n) ==>
      if n == 0 then go(s, [ByCp(CpFlushes)]) == Answered(s, 0, CSelect)
      else go(s, [ByCp(CpFlushes), ByCp(CpWrites)]) == Answered(s, 1, CFlush(n - 1))
  }

  lemma AnswerOne(s: State)
    requires s.cp.CFlush? && Answering(s, s.cp.n) && s.cp.n > 0
    ensures Step(Step(s, ByCp(CpFlushes)), ByCp(CpWrites)) == Answered(s, 1, CFlush(s.cp.n - 1))
  {
    assert FromProviders(s.q.responses[..1]) == [FromProvider(s.q.responses[0])];
  }

  lemma AnswerNone(s: State)
    requires s.cp == CFlush(0)
    ensures Step(s, ByCp(CpFlushes)) == Answered(s, 0, CSelect)
  {
    assert s.q.responses[0..] == s.q.responses && s.client.send + FromProviders(s.q.responses[..0]) == s.client.send;
  }

  lemma AnswerFirst(s: State)
    requires s.cp == CSelect && s.q.responses != [] && CanAnswer(s, 1)
    ensures Step(Step(s, ByCp(CpTakes)), ByCp(CpWrites)) == Answered(s, 1, CFlush(|s.q.responses| - 1))
  {
    assert FromProviders(s.q.responses[..1]) == [FromProvider(s.q.responses[0])];
  }

  lemma RunFlushesAnswers()
    ensures FlushesAnswers(RUN)
  {
    forall s: State, n: nat | Answering(s, n)
      ensures if n == 0 then RunFrom(s, [ByCp(CpFlushes)]) == Answered(s, 0, CSelect)
              else RunFrom(s, [ByCp(CpFlushes), ByCp(CpWrites)]) == Answered(s, 1, CFlush(n - 1))
    {
      if n == 0 {
        One(s, ByCp(CpFlushes));
        AnswerNone(s);
      } else {
        Two(s, ByCp(CpFlushes), ByCp(CpWrites));
        AnswerOne(s);
      }
    }
  }

  lemma {:induction false} FlushAnswers(go: Runner, s: State, n: nat)
    requires Composes(go) && FlushesAnswers(go) && Answering(s, n)
    ensures go(s, ClientFlush(n)) == Answered(s, n, CSelect)
    decreases n
  {
    if n > 0 {
      FlushAnswers(go, Answered(s, 1, CFlush(n - 1)), n - 1);
      AnsweredMore(s, n, CSelect);
    }
  }

  /** A client pump at its select that takes a response hands on all that wait, in order, and is back at its
      select. */
  lemma ClientTurnAnswersAll(s: State)
    requires s.cp == CSelect && s.q.responses != [] && |s.client.send| + |s.q.responses| <= QUEUE
    ensures RunFrom(s, [ByCp(CpTakes), ByCp(CpWrites)] + ClientFlush(|s.q.responses| - 1))
      == s.(client := s.client.(send := s.client.send + FromProviders(s.q.responses)), q := s.q.(responses := []))
  {
    var n := |s.q.responses|;
    RunComposes();
    RunFlushesAnswers();
    Two(s, ByCp(CpTakes), ByCp(CpWrites));
    AnswerFirst(s);
    TurnAnswers(RUN, s, n);
    assert s.q.responses[..n] == s.q.responses;
  }

  lemma TurnAnswers(go: Runner, s: State, n: nat)
    requires Composes(go) && FlushesAnswers(go) && n == |s.q.responses| > 0 && CanAnswer(s, n)
    requires go(s, [ByCp(CpTakes), ByCp(CpWrites)]) == Answered(s, 1, CFlush(n - 1))
    ensures go(s, [ByCp(CpTakes), ByCp(CpWrites)] + ClientFlush(n - 1)) == Answered(s, n, CSelect)
  {
    FlushAnswers(go, Answered(s, 1, CFlush(n - 1)), n - 1);
    AnsweredMore(s, n, CSelect);
  }

  // ------------------------------------------------------------ towards the provider

  /** The provider pump after remembering and handing on one request. */
  function Forwarded(s: State, n: nat): State
    requires s.q.requests != []
  {
    TakeRequest(s, None).(provider := Push(s.provider, s.q.requests[0]), pp := PFlush(n))
  }

  /** It has handed on the first n requests, in order, and is at its select; the client's side is as it was. */
  predicate ForwardedAll(s: State, t: State, n: nat) {
    && n <= |s.q.requests| && t.pp == PSelect
    && t.q == s.q.(requests := s.q.requests[n..])
    && t.provider == s.provider.(send := s.provider.send + s.q.requests[..n])
    && t.client == s.client && t.cp == s.cp && t.h == s.h && t.proxyDone == s.proxyDone
  }

  lemma ForwardedMore(s: State, t: State, n: nat)
    requires 0 < n <= |s.q.requests| && ForwardedAll(Forwarded(s, n - 1), t, n - 1)
    ensures ForwardedAll(s, t, n)
  {
    var rs := s.q.requests;
    assert rs[1..][n - 1..] == rs[n..];
    assert (s.provider.send + [rs[0]]) + rs[1..][..n - 1] == s.provider.send + rs[..n];
  }

  predicate CanForward(s: State, n: nat) { n <= |s.q.requests| && |s.provider.send| + n <= QUEUE }

  predicate Forwarding(s: State, n: nat) { s.pp == PFlush(n) && CanForward(s, n) }

  ghost predicate FlushesRequests(go: Runner) {
    forall s: State, n: nat :: Forwarding(s, n) ==>
      if n == 0 then ForwardedAll(s, go(s, [ByPp(PpFlushes)]), 0)
      else go(s, [ByPp(PpFlushes), ByPp(PpWrites)]) == Forwarded(s, n - 1)
  }

  lemma ForwardNone(s: State)
    requires s.pp == PFlush(0)
    ensures ForwardedAll(s, Step(s, ByPp(PpFlushes)), 0)
  {
    assert s.q.requests[0..] == s.q.requests && s.provider.send + s.q.requests[..0] == s.provider.send;
  }

  lemma ForwardOne(s: State)
    requires s.pp.PFlush? && Forwarding(s, s.pp.n) && s.pp.n > 0
    ensures Step(Step(s, ByPp(PpFlushes)), ByPp(PpWrites)) == Forwarded(s, s.pp.n - 1)
  {
  }

  lemma ForwardFirst(s: State)
    requires s.pp == PSelect && s.q.requests != [] && CanForward(s, 1)
    ensures Step(Step(s, ByPp(PpTakes)), ByPp(PpWrites)) == Forwarded(s, |s.q.requests| - 1)
  {
  }

  lemma RunFlushesRequests()
    ensures FlushesRequests(RUN)
  {
    forall s: State, n: nat | Forwarding(s, n)
      ensures if n == 0 then ForwardedAll(s, RunFrom(s, [ByPp(PpFlushes)]), 0)
              else RunFrom(s, [ByPp(PpFlushes), ByPp(PpWrites)]) == Forwarded(s, n - 1)
    {
      if n == 0 {
        One(s, ByPp(PpFlushes));
        ForwardNone(s);
      } else {
        Two(s, ByPp(PpFlushes), ByPp(PpWrites));
        ForwardOne(s);
      }
    }
  }

  lemma {:induction false} FlushForwards(go: Runner, s: State, n: nat)
    requires Composes(go) && FlushesRequests(go) && Forwarding(s, n)
    ensures ForwardedAll(s, go(s, ProviderFlush(n)), n)
    decreases n
  {
    if n > 0 {
      FlushForwards(go, Forwarded(s, n - 1), n - 1);
      ForwardedMore(s, go(s, ProviderFlush(n)), n);
    }
  }

  lemma TurnForwards(go: Runner, s: State, n: nat)
    requires Composes(go) && FlushesRequests(go) && n == |s.q.requests| > 0 && CanForward(s, n)
    requires go(s, [ByPp(PpTakes), ByPp(PpWrites)]) == Forwarded(s, n - 1)
    ensures ForwardedAll(s, go(s, [ByPp(PpTakes), ByPp(PpWrites)] + ProviderFlush(n - 1)), n)
  {
    FlushForwards(go, Forwarded(s, n - 1), n - 1);
    ForwardedMore(s, go(s, [ByPp(PpTakes), ByPp(PpWrites)] + ProviderFlush(n - 1)), n);
  }

  /** And so does the provider pump with the requests. */
  lemma ProviderTurnForwardsAll(s: State)
    requires s.pp == PSelect && s.q.requests != [] && |s.provider.send| + |s.q.requests| <= QUEUE
    ensures var n := |s.q.requests|;
      ForwardedAll(s, RunFrom(s, [ByPp(PpTakes), ByPp(PpWrites)] + ProviderFlush(n - 1)), n)
  {
    RunComposes();
    RunFlushesRequests();
    Two(s, ByPp(PpTakes), ByPp(PpWrites));
    ForwardFirst(s);
    TurnForwards(RUN, s, |s.q.requests|);
  }

  // -------------------------------------------------------------- the way of waiting

  /** Whoever waits is let go at once when a context it listens to has ended: a pump with something for the
      other pump by any of the three, if it is the client pump, and by the proxy's or the provider's if it
      is the provider pump; a pump with something to write by that connection's; one at its select by
      its own connection's. */
  lemma WaitsEnd(s: State)
    ensures s.cp.CSend? && (s.proxyDone || s.client.done || s.provider.done) ==>
      Step(s, ByCp(CpGivesUp)).cp == CExit
    ensures s.cp.CWrite? && s.client.done ==> Step(s, ByCp(CpDrops)).cp.CFlush?
    ensures s.cp.CReject? && |s.cp.left| > 0 && s.client.done ==>
      Step(s, ByCp(CpDrops)).cp in {CSelect, CReject(s.cp.left[1..])}
    ensures s.cp == CSelect && s.client.done ==> Step(s, ByCp(CpSeesDone)).cp == CExit
    ensures s.pp.PSend? && !s.pp.last && (s.proxyDone || s.provider.done) ==> Step(s, ByPp(PpGivesUp)).pp == PExit
    ensures s.pp.PWrite? && s.provider.done ==> Step(s, ByPp(PpDrops)).pp.PFlush?
    ensures s.pp == PSelect && s.provider.done ==> Step(s, ByPp(PpSeesDone)).pp == PExit
  {
  }

  function Arrivals(fs: seq<ClientFrame>): seq<Action> {
    seq(|fs|, i requires 0 <= i < |fs| => ClientFrameArrives(fs[i]))
  }

  function Replies(fs: seq<ProviderFrame>): seq<Action> {
    seq(|fs|, i requires 0 <= i < |fs| => ProviderFrameArrives(fs[i]))
  }

  /** Of the frames a peer sends in a row the first 32 wait for a pump, in order, and the rest are not read. */
  lemma {:induction false} BurstsWait(s: State, fs: seq<ClientFrame>)
    requires s.q.recvC == []
    ensures RunFrom(s, Arrivals(fs)) == s.(q := s.q.(recvC := if |fs| <= 32 then fs else fs[..32]))
  {
    if fs == [] {
      assert s.q.(recvC := []) == s.q;
    } else {
      var n := |fs| - 1;
      BurstsWait(s, fs[..n]);
      assert Arrivals(fs)[..n] == Arrivals(fs[..n]);
      assert |fs| > 32 ==> fs[..n][..32] == fs[..32];
    }
  }

  lemma {:induction false} RepliesWait(s: State, fs: seq<ProviderFrame>)
    requires s.q.recvP == []
    ensures RunFrom(s, Replies(fs)) == s.(q := s.q.(recvP := if |fs| <= 32 then fs else fs[..32]))
  {
    if fs == [] {
      assert s.q.(recvP := []) == s.q;
    } else {
      var n := |fs| - 1;
      RepliesWait(s, fs[..n]);
      assert Replies(fs)[..n] == Replies(fs[..n]);
      assert |fs| > 32 ==> fs[..n][..32] == fs[..32];
    }
  }
}
