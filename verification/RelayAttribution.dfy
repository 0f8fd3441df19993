/** Which request an error response is held against. A response carries no method, so the
    provider pump remembers the method of each request it forwards under the request's key. */
module RelayAttribution {
  import opened Wrappers
  import opened Rpc
  import opened Chains
  import opened Connections
  import opened Relay
  import opened RelayControl

  function KeyIn(e: Exchange): string { if e.Sent? then e.key else ResKey(e.res) }

  /** The method of the latest request with this key, unless a response has come since. */
  function Latest(h: seq<Exchange>, k: string): string {
    if h == [] || k == "" then ""
    else if KeyIn(h[|h| - 1]) != k then Latest(h[..|h| - 1], k)
    else if h[|h| - 1].Sent? then h[|h| - 1].methodName
    else ""
  }

  /** Position i holds a request with key k, and nothing with that key follows before position n. */
  predicate OpenAt(h: seq<Exchange>, k: string, i: nat, n: nat) {
    i < n <= |h| && h[i].Sent? && h[i].key == k && forall j :: i < j < n ==> KeyIn(h[j]) != k
  }

  lemma {:induction false} LatestIsOpen(h: seq<Exchange>, k: string, i: nat)
    requires k != "" && OpenAt(h, k, i, |h|)
    ensures Latest(h, k) == h[i].methodName
  {
    if i < |h| - 1 {
      assert KeyIn(h[|h| - 1]) != k;
      LatestIsOpen(h[..|h| - 1], k, i);
    }
  }

  lemma {:induction false} NothingOpen(h: seq<Exchange>, k: string)
    requires forall i: nat :: !OpenAt(h, k, i, |h|)
    ensures Latest(h, k) == ""
  {
    if h != [] && k != "" {
      var before, n := h[..|h| - 1], |h| - 1;
      if KeyIn(h[n]) != k {
        forall i: nat
          ensures !OpenAt(before, k, i, n)
        {
          assert !OpenAt(h, k, i, |h|);
        }
        NothingOpen(before, k);
      } else {
        assert !OpenAt(h, k, n, |h|);
      }
    }
  }

  // ------------------------------------------------------- the pump's bookkeeping

  predicate Unsupported(judge: ErrorHandler, res: Response) { IsError(res) && judge(res) == NotSupported }

  predicate Fatal(judge: ErrorHandler, res: Response) { IsError(res) && judge(res).Unhealthy? }

  /** The call on the provider that a response gives rise to, if any. */
  function MarkFor(judge: ErrorHandler, before: seq<Exchange>, e: Exchange): seq<Mark> {
    if !e.Got? then []
    else if Unsupported(judge, e.res) then [Lacks(Latest(before, ResKey(e.res)))]
    else if Fatal(judge, e.res) then [Lost(judge(e.res).rateLimited)]
    else []
  }

  function Marks(judge: ErrorHandler, h: seq<Exchange>): seq<Mark> {
    if h == [] then [] else Marks(judge, h[..|h| - 1]) + MarkFor(judge, h[..|h| - 1], h[|h| - 1])
  }

  /** pending knows this key exactly if a request with it is open, and then its method. */
  ghost predicate KeyRemembered(pending: map<string, string>, h: seq<Exchange>, k: string) {
    && (k in pending <==> k != "" && exists i: nat :: OpenAt(h, k, i, |h|))
    && (k in pending ==> pending[k] == Latest(h, k))
  }

  ghost predicate Remembers(s: State) {
    && (forall k :: KeyRemembered(s.pending, s.log.history, k))
    && s.log.marks == Marks(s.judge, s.log.history)
  }

  lemma OpenAfter(h: seq<Exchange>, e: Exchange, k: string)
    ensures var h' := h + [e];
      (exists i: nat :: OpenAt(h', k, i, |h'|))
        <==> (e.Sent? && e.key == k) || (KeyIn(e) != k && exists i: nat :: OpenAt(h, k, i, |h|))
  {
    var h' := h + [e];
    if e.Sent? && e.key == k {
      assert OpenAt(h', k, |h|, |h'|);
    }
    if KeyIn(e) != k {
      forall i: nat
        ensures OpenAt(h', k, i, |h'|) <==> OpenAt(h, k, i, |h|)
      {
        assert h'[|h|] == e;
        assert forall j :: 0 <= j < |h| ==> h'[j] == h[j];
      }
    } else {
      assert KeyIn(h'[|h|]) == k;
    }
  }

  lemma LatestAfter(h: seq<Exchange>, e: Exchange, k: string)
    ensures Latest(h + [e], k)
      == if k == "" then "" else if KeyIn(e) != k then Latest(h, k) else if e.Sent? then e.methodName else ""
  {
    assert (h + [e])[..|h|] == h;
  }

  /** The map after a message: a request is entered, a response takes its key out. */
  function PendingAfter(pending: map<string, string>, e: Exchange): map<string, string> {
    if KeyIn(e) == "" then pending
    else if e.Sent? then pending[e.key := e.methodName]
    else pending - {KeyIn(e)}
  }

  lemma ExchangeKeepsKey(pending: map<string, string>, h: seq<Exchange>, e: Exchange, k: string)
    requires KeyRemembered(pending, h, k)
    ensures KeyRemembered(PendingAfter(pending, e), h + [e], k)
  {
    OpenAfter(h, e, k);
    LatestAfter(h, e, k);
  }

  lemma ExchangeKeepsKeys(pending: map<string, string>, h: seq<Exchange>, e: Exchange)
    ensures (forall k :: KeyRemembered(pending, h, k)) ==>
      forall k :: KeyRemembered(PendingAfter(pending, e), h + [e], k)
  {
    forall k | KeyRemembered(pending, h, k)
      ensures KeyRemembered(PendingAfter(pending, e), h + [e], k)
    {
      ExchangeKeepsKey(pending, h, e, k);
    }
  }

  lemma AttributedIsLatest(s: State, k: string)
    requires Remembers(s)
    ensures Attributed(s.pending, k) == Latest(s.log.history, k)
  {
    assert KeyRemembered(s.pending, s.log.history, k);
    if k !in s.pending && k != "" {
      NothingOpen(s.log.history, k);
    }
  }

  lemma TakingKeepsRemembers(s: State, flush: Option<nat>)
    requires Remembers(s) && s.q.requests != []
    ensures Remembers(TakeRequest(s, flush))
  {
    var req, h, s' := s.q.requests[0], s.log.history, TakeRequest(s, flush);
    var e := Sent(ReqKey(req), req.methodName);
    assert s'.log.history == h + [e] && (h + [e])[..|h|] == h;
    ExchangeKeepsKeys(s.pending, h, e);
    assert s'.pending == PendingAfter(s.pending, e);
  }

  lemma ReplyRecords(s: State, res: Response)
    requires s.q.recvP != [] && s.q.recvP[0] == ProviderReply(res)
    ensures var s' := ReceiveFromProvider(s);
      && s'.pending == (if ResKey(res) != "" then s.pending - {ResKey(res)} else s.pending)
      && s'.log.history == s.log.history + [Got(res)] && s'.judge == s.judge
      && s'.log.marks == s.log.marks
           + (if Unsupported(s.judge, res) then [Lacks(Attributed(s.pending, ResKey(res)))]
              else if Fatal(s.judge, res) then [Lost(s.judge(res).rateLimited)] else [])
  {
  }

  lemma ReceivingKeepsRemembers(s: State)
    requires Remembers(s) && s.q.recvP != []
    ensures Remembers(ReceiveFromProvider(s))
  {
    if s.q.recvP[0].ProviderReply? {
      var res, h, s' := s.q.recvP[0].res, s.log.history, ReceiveFromProvider(s);
      ReplyRecords(s, res);
      assert (h + [Got(res)])[..|h|] == h;
      ExchangeKeepsKeys(s.pending, h, Got(res));
      assert s'.pending == PendingAfter(s.pending, Got(res));
      AttributedIsLatest(s, ResKey(res));
    }
  }

  lemma StepKeepsRemembers(s: State, a: Action)
    requires Remembers(s)
    ensures Remembers(Step(s, a))
  {
    if Enabled(s, a) {
      if a == ByPp(PpTakes) {
        TakingKeepsRemembers(s, None);
      } else if a == ByPp(PpFlushes) && s.pp.n != 0 {
        TakingKeepsRemembers(s, Some(s.pp.n - 1));
      } else if a == ByPp(PpReceives) {
        ReceivingKeepsRemembers(s);
      } else {
        OtherStepsForget(s, a);
      }
    }
  }

  lemma OtherStepsForget(s: State, a: Action)
    requires Enabled(s, a) && !(a.ByPp? && (a.p.PpTakes? || a.p.PpReceives? || (a.p.PpFlushes? && s.pp.n != 0)))
    ensures var s' := Step(s, a);
      && s'.pending == s.pending && s'.judge == s.judge
      && s'.log.history == s.log.history && s'.log.marks == s.log.marks
  {
    if a.ByCloser? {
      CloseTouchesNoMessage(s, a.k);
    }
  }

  lemma {:induction false} RunRemembers(judge: ErrorHandler, policy: Policy, actions: seq<Action>)
    ensures Remembers(Run(judge, policy, actions)) && Run(judge, policy, actions).judge == judge
  {
    if actions != [] {
      RunRemembers(judge, policy, actions[..|actions| - 1]);
      StepKeepsRemembers(Run(judge, policy, actions[..|actions| - 1]), actions[|actions| - 1]);
      ContextsStayDone(Run(judge, policy, actions[..|actions| - 1]), actions[|actions| - 1]);
    }
  }

  // ------------------------------------------------------------------- main results

  /** In every run pending[k] is the method of the latest request with key k forwarded since
      the last response with that key, and the keys without such a request are absent. */
  lemma PendingIsLatest(judge: ErrorHandler, policy: Policy, actions: seq<Action>, k: string)
    ensures var s := Run(judge, policy, actions);
      && (k in s.pending <==> k != "" && exists i: nat :: OpenAt(s.log.history, k, i, |s.log.history|))
      && (forall i: nat :: k != "" && OpenAt(s.log.history, k, i, |s.log.history|)
            ==> k in s.pending && s.pending[k] == s.log.history[i].methodName)
  {
    RunRemembers(judge, policy, actions);
    var s := Run(judge, policy, actions);
    assert KeyRemembered(s.pending, s.log.history, k);
    forall i: nat | k != "" && OpenAt(s.log.history, k, i, |s.log.history|)
      ensures k in s.pending && s.pending[k] == s.log.history[i].methodName
    {
      LatestIsOpen(s.log.history, k, i);
    }
  }
}
