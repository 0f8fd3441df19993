/** The provider pump's history is what really passed: its requests are those handed to the provider
    connection, its responses those read from it. */
module RelayHistory {
  import opened Wrappers
  import opened Rpc
  import opened Connections
  import opened Chains
  import opened Relay
  import opened RelayControl
  import opened RelayResponses

  function SentIn(h: seq<Exchange>): seq<Exchange> {
    if h == [] then [] else SentIn(h[..|h| - 1]) + (if h[|h| - 1].Sent? then [h[|h| - 1]] else [])
  }

  function GotIn(h: seq<Exchange>): seq<Response> {
    if h == [] then [] else GotIn(h[..|h| - 1]) + (if h[|h| - 1].Got? then [h[|h| - 1].res] else [])
  }

  lemma HistoryMore(h: seq<Exchange>, e: Exchange)
    ensures SentIn(h + [e]) == SentIn(h) + (if e.Sent? then [e] else [])
    ensures GotIn(h + [e]) == GotIn(h) + (if e.Got? then [e.res] else [])
  {
    assert (h + [e])[..|h|] == h;
  }

  function Noted(rs: seq<Request>): seq<Exchange> {
    seq(|rs|, i requires 0 <= i < |rs| => Sent(ReqKey(rs[i]), rs[i].methodName))
  }

  /** What the pump has taken over: written or dropped already, and in its hand. */
  function TakenOver(s: State): seq<Request> {
    Stream(s.provider) + (if s.pp.PWrite? then [s.pp.req] else [])
  }

  ghost predicate Faithful(s: State) {
    && GotIn(s.log.history) == Replies(s.log.readP)
    && (!s.provider.done ==> SentIn(s.log.history) == Noted(TakenOver(s)))
  }

  lemma NotedMore(rs: seq<Request>, r: Request)
    ensures Noted(rs + [r]) == Noted(rs) + [Sent(ReqKey(r), r.methodName)]
  {
  }

  lemma TakingIsNoted(s: State, flush: Option<nat>)
    requires s.q.requests != [] && !s.pp.PWrite? && Faithful(s)
    ensures Faithful(TakeRequest(s, flush))
  {
    var r := s.q.requests[0];
    HistoryMore(s.log.history, Sent(ReqKey(r), r.methodName));
    NotedMore(Stream(s.provider), r);
    assert Stream(s.provider) + [] == Stream(s.provider);
  }

  lemma ReadingLogs(s: State)
    requires PpEnabled(s, PpReceives)
    ensures var f, s' := s.q.recvP[0], ReceiveFromProvider(s);
      && s'.log.readP == s.log.readP + [f] && s'.provider == s.provider && !s'.pp.PWrite?
      && s'.log.history == s.log.history + (if f.ProviderReply? then [Got(f.res)] else [])
  {
  }

  lemma ReadingIsNoted(s: State)
    requires PpEnabled(s, PpReceives) && Faithful(s)
    ensures Faithful(ReceiveFromProvider(s))
  {
    ReadingLogs(s);
    LoggedIsFaithful(s, ReceiveFromProvider(s), s.q.recvP[0]);
  }

  lemma LoggedIsFaithful(s: State, s': State, f: ProviderFrame)
    requires Faithful(s) && !s.pp.PWrite? && !s'.pp.PWrite? && s'.provider == s.provider
    requires s'.log.readP == s.log.readP + [f]
    requires s'.log.history == s.log.history + (if f.ProviderReply? then [Got(f.res)] else [])
    ensures Faithful(s')
  {
    RepliesAppend(s.log.readP, f);
    if f.ProviderReply? {
      HistoryMore(s.log.history, Got(f.res));
    } else {
      assert s'.log.history == s.log.history;
    }
  }

  lemma WritingIsNoted(s: State)
    requires PpEnabled(s, PpWrites) && Faithful(s)
    ensures Faithful(PpStep(s, PpWrites))
  {
    PushExtendsStream(s.provider, s.pp.req);
  }

  lemma PpKeepsFaithful(s: State, p: PpAction)
    requires PpEnabled(s, p) && Faithful(s)
    ensures Faithful(PpStep(s, p))
  {
    match p
    case PpReceives => ReadingIsNoted(s);
    case PpTakes => TakingIsNoted(s, None);
    case PpFlushes => if s.pp.n != 0 { TakingIsNoted(s, Some(s.pp.n - 1)); }
    case PpWrites => WritingIsNoted(s);
    case _ =>
  }

  lemma CpKeepsFaithful(s: State, c: CpAction)
    requires CpEnabled(s, c) && Faithful(s)
    ensures Faithful(CpStep(s, c))
  {
    CpFrame(s, c);
    CpReads(s, c);
    CpLeavesHistory(s, c);
  }

  lemma CpLeavesHistory(s: State, c: CpAction)
    requires CpEnabled(s, c)
    ensures CpStep(s, c).log.history == s.log.history
  {
  }

  lemma CloseKeepsFaithful(s: State, k: CloseAction)
    requires CloseEnabled(s, k) && Faithful(s)
    ensures Faithful(CloseStep(s, k))
  {
    CloseTouchesNoMessage(s, k);
    CloseKeepsStreams(s, k);
  }

  lemma OutsideKeepsFaithful(s: State, a: Action)
    requires Enabled(s, a) && Outside(a) && Faithful(s)
    ensures Faithful(Step(s, a))
  {
    OutsideTouchesNoMessage(s, a);
    if a.ProviderWriter? {
      WriterKeepsStream(s.provider, a.w);
      WriterActs(s, a.w);
    }
  }

  /** In every run the responses of the history are the frames read from the provider, and while its
      connection lives the requests are those handed to it, written, queued or in hand. */
  lemma {:induction false} HistoryIsFaithful(judge: ErrorHandler, policy: Policy, actions: seq<Action>)
    ensures Faithful(Run(judge, policy, actions))
  {
    if actions != [] {
      var s, a := Run(judge, policy, actions[..|actions| - 1]), actions[|actions| - 1];
      HistoryIsFaithful(judge, policy, actions[..|actions| - 1]);
      if Enabled(s, a) {
        match a
        case ByCp(c) => CpKeepsFaithful(s, c);
        case ByPp(p) => PpKeepsFaithful(s, p);
        case ByCloser(k) => CloseKeepsFaithful(s, k);
        case _ => OutsideKeepsFaithful(s, a);
      }
    }
  }
}
