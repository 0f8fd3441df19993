/** The failover loop itself, over provider objects changed in place. */
module FailoverLoop {
  import opened Wrappers
  import opened Rpc
  import opened Chains
  import opened Providers
  import opened Traffic
  import opened Upstream
  import opened ResponseMethods
  import opened Failover

  method SupportsAllMethods(p: Provider, reqs: seq<Request>, now: Time) returns (ok: bool)
    modifies p
    ensures ok == Capable(old(p.View()), reqs, now)
    ensures Unchanged(old(p.View()), p.View(), now)
  {
    var i := 0;
    while i < |reqs|
      invariant 0 <= i <= |reqs|
      invariant Unchanged(old(p.View()), p.View(), now)
      invariant forall j :: 0 <= j < i ==> !Flagged(old(p.View()), reqs[j].methodName, now)
    {
      ghost var before := p.View();
      var supported := p.SupportsMethod(reqs[i].methodName, now);
      ProbingIsInvisible(before, reqs[i].methodName, now);
      if !supported {
        return false;
      }
      i := i + 1;
    }
    return true;
  }

  // ---------------------------------------------------------------- scanning a reply

  /** The names the scan marks before it reaches position n. */
  function Marked(h: ErrorHandler, names: seq<string>, rs: seq<Response>, n: nat): set<string>
    requires n <= |rs| == |names|
  {
    if n == 0 then {}
    else if SaysUnsupported(h, rs[n - 1]) && names[n - 1] != "" then Marked(h, names, rs, n - 1) + {names[n - 1]}
    else Marked(h, names, rs, n - 1)
  }

  lemma {:induction false} MarkedHolds(h: ErrorHandler, names: seq<string>, rs: seq<Response>, n: nat, name: string)
    requires n <= |rs| == |names|
    ensures name in Marked(h, names, rs, n)
      <==> name != "" && exists i :: 0 <= i < n && SaysUnsupported(h, rs[i]) && names[i] == name
  {
    if n != 0 {
      MarkedHolds(h, names, rs, n - 1, name);
    }
  }

  function WithFlags(flags: map<string, Time>, marked: set<string>, now: Time): map<string, Time> {
    flags + (map name | name in marked :: now)
  }

  /** p after the names in marked were flagged. */
  function Flagging(p: ProviderState, marked: set<string>, now: Time): ProviderState {
    p.(unsupported := WithFlags(p.unsupported, marked, now))
  }

  lemma FlaggingNext(p: ProviderState, marked: set<string>, name: string, now: Time)
    ensures Flagging(p, {}, now) == p
    ensures name != "" ==> WithFlag(Flagging(p, marked, now), name, now) == Flagging(p, marked + {name}, now)
  {
    assert WithFlags(p.unsupported, {}, now) == p.unsupported;
    assert WithFlags(p.unsupported, marked, now)[name := now] == WithFlags(p.unsupported, marked + {name}, now);
  }

  datatype Verdict = Clean | NotHere | Elsewhere | Bad

  function VerdictOf(h: ErrorHandler, rs: seq<Response>): Verdict {
    var n := FirstStop(h, rs);
    if n == |rs| then if UnsupportedSeen(h, rs) then NotHere else Clean
    else if h(rs[n]).TryNext? then Elsewhere else Bad
  }

  function Scanned(h: ErrorHandler, p: ProviderState, names: seq<string>, rs: seq<Response>, now: Time): ProviderState
    requires |names| == |rs|
  {
    var n := FirstStop(h, rs);
    var p1 := Flagging(p, Marked(h, names, rs, n), now);
    if VerdictOf(h, rs).Bad? then MarkedUnhealthy(p1, CauseInBand(h(rs[n])), now) else p1
  }

  method ScanErrors(h: ErrorHandler, p: Provider, names: seq<string>, rs: seq<Response>, now: Time)
    returns (verdict: Verdict, unsupported: bool)
    requires |names| == |rs|
    modifies p
    ensures verdict == VerdictOf(h, rs) && unsupported == UnsupportedSeen(h, rs)
    ensures p.View() == Scanned(h, old(p.View()), names, rs, now)
  {
    unsupported := false;
    var i := 0;
    ghost var was := p.View();
    FlaggingNext(was, {}, "", now);
    while i < |rs|
      invariant 0 <= i <= |rs|
      invariant forall j :: 0 <= j < i ==> !Stops(h, rs[j])
      invariant unsupported <==> exists j :: 0 <= j < i && SaysUnsupported(h, rs[j])
      invariant p.View() == Flagging(was, Marked(h, names, rs, i), now)
    {
      if IsError(rs[i]) {
        var disposition := h(rs[i]);
        if disposition.NotSupported? {
          FlaggingNext(was, Marked(h, names, rs, i), names[i], now);
          p.MarkMethodUnsupported(names[i], now);
          unsupported := true;
        } else if disposition.TryNext? {
          FirstStopIs(h, rs, i);
          return Elsewhere, unsupported;
        } else if disposition.Unhealthy? {
          FirstStopIs(h, rs, i);
          p.MarkUnhealthy(CauseInBand(disposition), now);
          return Bad, unsupported;
        }
      }
      i := i + 1;
    }
    FirstStopIs(h, rs, |rs|);
    return if unsupported then NotHere else Clean, unsupported;
  }

  lemma FirstStopIs(h: ErrorHandler, rs: seq<Response>, n: nat)
    requires n <= |rs| && (n < |rs| ==> Stops(h, rs[n]))
    requires forall j :: 0 <= j < n ==> !Stops(h, rs[j])
    ensures FirstStop(h, rs) == n
  {
  }

  // ------------------------------------------------------------------- one provider

  /** The provider after it has been asked, down to each flag's time. */
  ghost function Called(h: ErrorHandler, req: BatchRequest, p: ProviderState, c: Contact): ProviderState
    requires |req.requests| > 0
  {
    var p1 := Returned(p, c);
    if c.cancelled then p1 else
      match Classify(c.raw)
      case Failed(f) =>
        if f.NotImplemented? && |req.requests| == 1 then WithFlag(p1, req.requests[0].methodName, c.done)
        else if f == StatusError(REQUEST_TOO_LARGE) || !p1.online then p1
        else MarkedUnhealthy(p1, CauseOf(f), c.done)
      case Answered(res) =>
        if |res.responses| != |req.requests| then MarkedUnhealthy(p1, OtherFault, c.done)
        else Scanned(h, p1, Methods(req.requests, res.responses), res.responses, c.done)
  }

  method Call(h: ErrorHandler, req: BatchRequest, p: Provider, c: Contact) returns (o: Outcome, unsupported: bool)
    requires |req.requests| > 0 && (!req.isBatch ==> |req.requests| == 1)
    requires Asked(p.View(), req.requests, c)
    modifies p
    ensures o == OutcomeOf(h, req, old(p.View()), c)
    ensures unsupported == SawUnsupported(h, req, old(p.View()), c)
    ensures p.View() == Called(h, req, old(p.View()), c)
  {
    Happen(p, c.meanwhile);
    var reply := SendRpcBatchRequest(p, c.raw, c.done);
    Happen(p, c.aside);
    if c.cancelled {
      return Abandoned, false;
    }
    match reply {
      case Failed(f) =>
        if f.NotImplemented? && |req.requests| == 1 {
          p.MarkMethodUnsupported(req.requests[0].methodName, c.done);
          return Unsupported, true;
        }
        if f == StatusError(REQUEST_TOO_LARGE) {
          return TooLarge, false;
        }
        if p.online {
          p.MarkUnhealthy(CauseOf(f), c.done);
        }
        return Faulty, false;
      case Answered(res) =>
        if |res.responses| != |req.requests| {
          p.MarkUnhealthy(OtherFault, c.done);
          return Faulty, false;
        }
        var names := ResponseMethods.ResponseMethods(req, res);
        assert names == Methods(req.requests, res.responses);
        var verdict;
        verdict, unsupported := ScanErrors(h, p, names, res.responses, c.done);
        var shaped := res.(isBatch := req.isBatch);
        o := match verdict
          case Clean => Served(shaped)
          case NotHere => Unsupported
          case Elsewhere => TryElsewhere(shaped)
          case Bad => Faulty;
    }
  }

  lemma CalledIsHealth(h: ErrorHandler, req: BatchRequest, p: ProviderState, c: Contact)
    requires |req.requests| > 0 && Asked(p, req.requests, c)
    ensures SameHealth(Health(h, req, p, c), Called(h, req, p, c))
  {
  }

  /** The names flagged by asking this provider. */
  ghost function NewFlags(h: ErrorHandler, req: BatchRequest, c: Contact): set<string>
    requires |req.requests| > 0
  {
    if c.cancelled then {} else
      match Classify(c.raw)
      case Failed(f) =>
        if f.NotImplemented? && |req.requests| == 1 && req.requests[0].methodName != ""
        then {req.requests[0].methodName} else {}
      case Answered(res) =>
        if |res.responses| != |req.requests| then {}
        else Marked(h, Methods(req.requests, res.responses), res.responses, FirstStop(h, res.responses))
  }

  lemma CalledAddsFlags(h: ErrorHandler, req: BatchRequest, p: ProviderState, c: Contact)
    requires |req.requests| > 0
    ensures Called(h, req, p, c).unsupported == WithFlags(Returned(p, c).unsupported, NewFlags(h, req, c), c.done)
  {
    var none: set<string> := {};
    var was := Returned(p, c).unsupported;
    assert WithFlags(was, none, c.done) == was;
    var name := req.requests[0].methodName;
    assert WithFlags(was, {name}, c.done) == was[name := c.done];
  }

  lemma NewFlagsAre(h: ErrorHandler, req: BatchRequest, p: ProviderState, c: Contact, name: string)
    requires |req.requests| > 0 && Asked(p, req.requests, c)
    ensures name in NewFlags(h, req, c) <==> Flags(h, req, p, c, name)
  {
    if !c.cancelled && Classify(c.raw).Answered? {
      var res := Classify(c.raw).res;
      if |res.responses| == |req.requests| {
        MarkedHolds(h, Methods(req.requests, res.responses), res.responses, FirstStop(h, res.responses), name);
      }
    }
  }

  /** Asking leaves what the turn is said to leave, whether or not flags that had run out were dropped first. */
  lemma CalledSettles(h: ErrorHandler, req: BatchRequest, was: ProviderState, asked: ProviderState, c: Contact)
    requires |req.requests| > 0 && Asked(was, req.requests, c) && Unchanged(was, asked, c.at)
    ensures Unchanged(Settled(h, req, was, c), Called(h, req, asked, c), c.at)
    ensures OutcomeOf(h, req, was, c) == OutcomeOf(h, req, asked, c)
    ensures SawUnsupported(h, req, was, c) == SawUnsupported(h, req, asked, c)
  {
    assert Capable(asked, req.requests, c.at);
    ReturnedAlike(was, asked, c);
    CalledIsHealth(h, req, asked, c);
    SameTurn(h, req, was, asked, c);
    forall name, t | t >= c.at
      ensures Flagged(Called(h, req, asked, c), name, t) <==> Flagged(Settled(h, req, was, c), name, t)
    {
      CalledFlags(h, req, asked, c, name, t);
      SettledFlags(h, req, was, c, name, t);
    }
    SettledFlags(h, req, was, c, "", c.at);
  }

  lemma ReturnedAlike(was: ProviderState, asked: ProviderState, c: Contact)
    requires Unchanged(was, asked, c.at)
    ensures Unchanged(Returned(was, c), Returned(asked, c), c.at)
  {
    UnchangedAfter(was, asked, c.meanwhile, c.at);
    var w, a := AfterCall(After(was, c.meanwhile), c.raw, c.done), AfterCall(After(asked, c.meanwhile), c.raw, c.done);
    forall name, t | t >= c.at
      ensures Flagged(a, name, t) <==> Flagged(w, name, t)
    {
      assert Flagged(After(asked, c.meanwhile), name, t) <==> Flagged(After(was, c.meanwhile), name, t);
    }
    UnchangedAfter(w, a, c.aside, c.at);
  }

  lemma CalledFlags(h: ErrorHandler, req: BatchRequest, p: ProviderState, c: Contact, name: string, t: Time)
    requires |req.requests| > 0 && Asked(p, req.requests, c)
    ensures Flagged(Called(h, req, p, c), name, t)
      <==> if Flags(h, req, p, c, name) then t - c.done <= UNSUPPORTED_METHOD_TTL else Flagged(Returned(p, c), name, t)
  {
    CalledAddsFlags(h, req, p, c);
    NewFlagsAre(h, req, p, c, name);
  }

  lemma SameTurn(h: ErrorHandler, req: BatchRequest, was: ProviderState, asked: ProviderState, c: Contact)
    requires Asked(was, req.requests, c) && Asked(asked, req.requests, c)
    requires SameHealth(Returned(was, c), Returned(asked, c))
    ensures SameHealth(Health(h, req, was, c), Health(h, req, asked, c))
    ensures OutcomeOf(h, req, was, c) == OutcomeOf(h, req, asked, c)
    ensures SawUnsupported(h, req, was, c) == SawUnsupported(h, req, asked, c)
    ensures forall name :: Flags(h, req, was, c, name) == Flags(h, req, asked, c, name)
  {
  }

  /** One turn of the loop. */
  method Ask(h: ErrorHandler, req: BatchRequest, p: Provider, c: Contact) returns (o: Outcome, unsupported: bool)
    requires |req.requests| > 0 && (!req.isBatch ==> |req.requests| == 1)
    modifies p
    ensures o == OutcomeOf(h, req, old(p.View()), c)
    ensures unsupported == SawUnsupported(h, req, old(p.View()), c)
    ensures Unchanged(Settled(h, req, old(p.View()), c), p.View(), c.at)
  {
    if !p.online {
      return Offline, false;
    }
    var capable := SupportsAllMethods(p, req.requests, c.at);
    if !capable {
      return Incapable, true;
    }
    ghost var asked := p.View();
    assert Capable(asked, req.requests, c.at);
    o, unsupported := Call(h, req, p, c);
    CalledSettles(h, req, old(p.View()), asked, c);
  }

  // ----------------------------------------------------------------- all providers

  ghost predicate Apart(providers: seq<Provider>) {
    forall i, j :: 0 <= i < j < |providers| ==> providers[i] != providers[j]
  }

  /** The states of the providers now. */
  ghost function Views(providers: seq<Provider>): (views: seq<ProviderState>)
    reads providers
    ensures |views| == |providers|
  {
    seq(|providers|, i requires 0 <= i < |providers| reads providers => providers[i].View())
  }

  ghost function FlaggedEverywhere(names: seq<string>, views: seq<ProviderState>, now: Time): set<string> {
    set m | m in names && forall i :: 0 <= i < |views| ==> Flagged(views[i], m, now)
  }

  lemma DistinctNext(names: seq<string>, n: nat, wanted: set<string>)
    requires n < |names|
    ensures Distinct(names[..n + 1], wanted)
      == Distinct(names[..n], wanted) + (if names[n] in wanted && names[n] !in names[..n] then [names[n]] else [])
  {
    assert names[..n + 1][..n] == names[..n];
  }

  ghost predicate AllUnchanged(providers: seq<Provider>, views: seq<ProviderState>, now: Time)
    reads providers
  {
    |views| == |providers| && forall i :: 0 <= i < |providers| ==> Unchanged(views[i], providers[i].View(), now)
  }

  /** Does any provider support this method? The first that does ends the search. */
  method SupportedSomewhere(providers: seq<Provider>, name: string, now: Time, ghost views: seq<ProviderState>)
    returns (supported: bool)
    requires Apart(providers) && AllUnchanged(providers, views, now)
    modifies providers
    ensures supported <==> exists i :: 0 <= i < |views| && !Flagged(views[i], name, now)
    ensures AllUnchanged(providers, views, now)
  {
    var i := 0;
    while i < |providers|
      invariant 0 <= i <= |providers|
      invariant forall j :: 0 <= j < i ==> Flagged(views[j], name, now)
      invariant AllUnchanged(providers, views, now)
    {
      ghost var before := providers[i].View();
      var ok := providers[i].SupportsMethod(name, now);
      ProbingIsInvisible(before, name, now);
      if ok {
        return true;
      }
      i := i + 1;
    }
    return false;
  }

  method MethodsWithoutProvider(providers: seq<Provider>, reqs: seq<Request>, now: Time,
                                ghost views: seq<ProviderState>)
    returns (missing: seq<string>)
    requires Apart(providers) && views == Views(providers)
    modifies providers
    ensures missing == Distinct(Names(reqs), FlaggedEverywhere(Names(reqs), views, now))
    ensures AllUnchanged(providers, views, now)
  {
    ghost var names := Names(reqs);
    ghost var wanted := FlaggedEverywhere(names, views, now);
    missing := [];
    var seen: set<string> := {};
    var n := 0;
    while n < |reqs|
      invariant 0 <= n <= |reqs|
      invariant forall m :: m in seen <==> m in names[..n]
      invariant missing == Distinct(names[..n], wanted)
      invariant AllUnchanged(providers, views, now)
    {
      var name := reqs[n].methodName;
      DistinctNext(names, n, wanted);
      assert names[..n + 1] == names[..n] + [name];
      if name !in seen {
        seen := seen + {name};
        var supported := SupportedSomewhere(providers, name, now, views);
        WantedExactly(names, views, now, n);
        if !supported {
          missing := missing + [name];
        }
      }
      n := n + 1;
    }
    assert names[..n] == names;
  }

  lemma WantedExactly(names: seq<string>, views: seq<ProviderState>, now: Time, n: nat)
    requires n < |names|
    ensures names[n] in FlaggedEverywhere(names, views, now)
      <==> !exists i :: 0 <= i < |views| && !Flagged(views[i], names[n], now)
  {
  }

  /** What the loop has found out before provider i. */
  datatype Findings = Findings(unsupported: bool, tooLarge: bool, tryNext: Option<(nat, BatchResponse)>,
      asked: seq<nat>)

  ghost predicate Found(outs: seq<Outcome>, saw: seq<bool>, i: nat, f: Findings)
    requires i <= |outs| == |saw|
  {
    && (forall j :: 0 <= j < i ==> !Final(outs[j]))
    && f.asked == AskedBefore(outs, i)
    && (f.unsupported <==> exists j :: 0 <= j < i && saw[j])
    && (f.tooLarge <==> exists j :: 0 <= j < i && outs[j] == TooLarge)
    && (f.tryNext.None? ==> forall j :: 0 <= j < i ==> !outs[j].TryElsewhere?)
    && (f.tryNext.Some? ==>
          && f.tryNext.value.0 < i && outs[f.tryNext.value.0] == TryElsewhere(f.tryNext.value.1)
          && forall j :: f.tryNext.value.0 < j < i ==> !outs[j].TryElsewhere?)
  }

  function Note(f: Findings, i: nat, o: Outcome, unsupported: bool): Findings {
    Findings(f.unsupported || unsupported, f.tooLarge || o.TooLarge?,
             if o.TryElsewhere? then Some((i, o.res)) else f.tryNext,
             if o.Offline? || o.Incapable? then f.asked else f.asked + [i])
  }

  lemma NoteFinds(outs: seq<Outcome>, saw: seq<bool>, i: nat, f: Findings)
    requires i < |outs| == |saw| && Found(outs, saw, i, f) && !Final(outs[i])
    ensures Found(outs, saw, i + 1, Note(f, i, outs[i], saw[i]))
  {
  }

  /** What the findings amount to once every provider has had its turn. */
  function Conclude(f: Findings, missing: seq<string>): Result {
    if f.unsupported && missing != [] then NoProviderForMethod(missing)
    else if f.tooLarge then RequestTooLarge
    else if f.tryNext.Some? then Answer(f.tryNext.value.0, f.tryNext.value.1)
    else NoProvidersAvailable
  }

  lemma ConclusionDecides(outs: seq<Outcome>, saw: seq<bool>, f: Findings, missing: seq<string>)
    requires |outs| == |saw| && Found(outs, saw, |outs|, f)
    ensures FirstFinal(outs) == |outs|
    ensures Conclude(f, missing) == Decide(outs, exists j :: 0 <= j < |saw| && saw[j], missing)
  {
  }

  /** outs and saw list what each provider's turn amounts to. */
  ghost predicate Describes(h: ErrorHandler, req: BatchRequest, views: seq<ProviderState>, contacts: seq<Contact>,
                            outs: seq<Outcome>, saw: seq<bool>)
  {
    && |views| == |contacts| == |outs| == |saw|
    && forall j: nat {:trigger DescribesAt(h, req, views, contacts, outs, saw, j)} ::
         DescribesAt(h, req, views, contacts, outs, saw, j)
  }

  ghost predicate DescribesAt(h: ErrorHandler, req: BatchRequest, views: seq<ProviderState>, contacts: seq<Contact>,
                              outs: seq<Outcome>, saw: seq<bool>, j: nat)
    requires |views| == |contacts| == |outs| == |saw|
  {
    j < |views| ==>
      outs[j] == OutcomeOf(h, req, views[j], contacts[j]) && saw[j] == SawUnsupported(h, req, views[j], contacts[j])
  }

  /** The providers before i have had their turn, the others not. */
  ghost predicate Reached(h: ErrorHandler, req: BatchRequest, providers: seq<Provider>, starts: seq<ProviderState>,
                          contacts: seq<Contact>, i: nat)
    requires |providers| == |starts| == |contacts|
    reads providers
  {
    && (forall j: nat {:trigger TurnTaken(h, req, providers, starts, contacts, j)} ::
          j < i ==> TurnTaken(h, req, providers, starts, contacts, j))
    && (forall j :: i <= j < |starts| ==> providers[j].View() == starts[j])
  }

  ghost predicate TurnTaken(h: ErrorHandler, req: BatchRequest, providers: seq<Provider>, starts: seq<ProviderState>,
                            contacts: seq<Contact>, j: nat)
    requires |providers| == |starts| == |contacts|
    reads providers
  {
    j < |starts| ==>
      Unchanged(Settled(h, req, After(starts[j], contacts[j].before), contacts[j]), providers[j].View(), contacts[j].at)
  }

  /** Provider i takes its turn; unless that settles the matter, what it shows is noted. */
  method AskNext(h: ErrorHandler, req: BatchRequest, providers: seq<Provider>, contacts: seq<Contact>, i: nat,
                 f: Findings, ghost starts: seq<ProviderState>, ghost outs: seq<Outcome>, ghost saw: seq<bool>)
    returns (o: Outcome, f': Findings)
    requires |req.requests| > 0 && (!req.isBatch ==> |req.requests| == 1)
    requires Apart(providers) && i < |contacts| == |providers| == |starts|
    requires Describes(h, req, ViewsAt(starts, contacts), contacts, outs, saw)
    requires Found(outs, saw, i, f) && Reached(h, req, providers, starts, contacts, i)
    modifies providers[i]
    ensures Reached(h, req, providers, starts, contacts, i + 1)
    ensures o == outs[i]
    ensures if Final(o) then f' == f else Found(outs, saw, i + 1, f')
  {
    f' := f;
    assert DescribesAt(h, req, ViewsAt(starts, contacts), contacts, outs, saw, i);
    Happen(providers[i], contacts[i].before);
    var unsupported;
    o, unsupported := Ask(h, req, providers[i], contacts[i]);
    forall j: nat | j < i + 1
      ensures TurnTaken(h, req, providers, starts, contacts, j)
    {
      assert j < i ==> old(TurnTaken(h, req, providers, starts, contacts, j));
    }
    if !o.Served? && !o.Abandoned? {
      NoteFinds(outs, saw, i, f);
      f' := Note(f, i, o, unsupported);
    }
  }

  /** The loop: providers take their turns until one of them settles the matter. */
  method TakeTurns(h: ErrorHandler, req: BatchRequest, providers: seq<Provider>, contacts: seq<Contact>,
                   ghost starts: seq<ProviderState>, ghost outs: seq<Outcome>, ghost saw: seq<bool>)
    returns (i: nat, f: Findings, last: Outcome)
    requires |req.requests| > 0 && (!req.isBatch ==> |req.requests| == 1)
    requires Apart(providers) && |contacts| == |providers| == |starts|
    requires Describes(h, req, ViewsAt(starts, contacts), contacts, outs, saw)
    requires Reached(h, req, providers, starts, contacts, 0)
    modifies providers
    ensures i <= |outs| && Found(outs, saw, i, f)
    ensures i < |outs| ==> Final(outs[i]) && last == outs[i]
    ensures Reached(h, req, providers, starts, contacts, if i < |outs| then i + 1 else i)
  {
    f := Findings(false, false, None, []);
    i, last := 0, Offline;
    while i < |providers|
      invariant 0 <= i <= |providers|
      invariant Found(outs, saw, i, f)
      invariant Reached(h, req, providers, starts, contacts, i)
    {
      last, f := AskNext(h, req, providers, contacts, i, f, starts, outs, saw);
      if Final(last) {
        return;
      }
      i := i + 1;
    }
  }

  /** Provider j is as its turn and the traffic up to the end of the pass leave it. */
  ghost predicate EndReached(h: ErrorHandler, req: BatchRequest, providers: seq<Provider>, starts: seq<ProviderState>,
                             contacts: seq<Contact>, j: nat)
    requires |providers| == |starts| == |contacts|
    reads providers
  {
    j < |starts| ==>
      Unchanged(Left(h, req, After(starts[j], contacts[j].before), contacts[j]), providers[j].View(), contacts[j].at)
  }

  /** The traffic between the turns and the end of the pass. */
  method PassTime(h: ErrorHandler, req: BatchRequest, providers: seq<Provider>, contacts: seq<Contact>, n: nat,
                  ghost starts: seq<ProviderState>)
    requires Apart(providers) && n <= |contacts| == |providers| == |starts|
    requires Reached(h, req, providers, starts, contacts, n)
    modifies providers
    ensures forall j: nat {:trigger EndReached(h, req, providers, starts, contacts, j)} ::
      j < n ==> EndReached(h, req, providers, starts, contacts, j)
    ensures forall j :: n <= j < |starts| ==> providers[j].View() == starts[j]
  {
    for i := 0 to n
      invariant forall j: nat {:trigger EndReached(h, req, providers, starts, contacts, j)} ::
        j < i ==> EndReached(h, req, providers, starts, contacts, j)
      invariant forall j: nat {:trigger TurnTaken(h, req, providers, starts, contacts, j)} ::
        i <= j < n ==> TurnTaken(h, req, providers, starts, contacts, j)
      invariant forall j :: n <= j < |starts| ==> providers[j].View() == starts[j]
    {
      PassTimeFor(h, req, providers, contacts, i, n, starts);
    }
  }

  method PassTimeFor(h: ErrorHandler, req: BatchRequest, providers: seq<Provider>, contacts: seq<Contact>, i: nat,
                     n: nat, ghost starts: seq<ProviderState>)
    requires Apart(providers) && i < n <= |contacts| == |providers| == |starts|
    requires forall j: nat {:trigger EndReached(h, req, providers, starts, contacts, j)} ::
      j < i ==> EndReached(h, req, providers, starts, contacts, j)
    requires forall j: nat {:trigger TurnTaken(h, req, providers, starts, contacts, j)} ::
      i <= j < n ==> TurnTaken(h, req, providers, starts, contacts, j)
    modifies providers[i]
    ensures forall j: nat {:trigger EndReached(h, req, providers, starts, contacts, j)} ::
      j < i + 1 ==> EndReached(h, req, providers, starts, contacts, j)
    ensures forall j: nat {:trigger TurnTaken(h, req, providers, starts, contacts, j)} ::
      i + 1 <= j < n ==> TurnTaken(h, req, providers, starts, contacts, j)
  {
    ghost var was := providers[i].View();
    assert TurnTaken(h, req, providers, starts, contacts, i);
    UnchangedAfter(Settled(h, req, After(starts[i], contacts[i].before), contacts[i]), was, contacts[i].after,
        contacts[i].at);
    Happen(providers[i], contacts[i].after);
    forall j: nat | j < i + 1
      ensures EndReached(h, req, providers, starts, contacts, j)
    {
      assert j < i ==> old(EndReached(h, req, providers, starts, contacts, j));
    }
    forall j: nat | i + 1 <= j < n
      ensures TurnTaken(h, req, providers, starts, contacts, j)
    {
      assert old(TurnTaken(h, req, providers, starts, contacts, j));
    }
  }

  /** The whole pass against its loop-free description, in any traffic. */
  method ForwardWithFailover(h: ErrorHandler, req: BatchRequest, providers: seq<Provider>, contacts: seq<Contact>,
                             end: Time, ghost starts: seq<ProviderState>)
    returns (result: Result, asked: seq<nat>)
    requires |req.requests| > 0 && (!req.isBatch ==> |req.requests| == 1)
    requires Apart(providers) && |contacts| == |providers| == |starts| && Views(providers) == starts
    requires forall i :: 0 <= i < |contacts| ==> contacts[i].at <= end
    modifies providers
    ensures var views := ViewsAt(starts, contacts);
      var outs := Outcomes(h, req, views, contacts);
      && result == ResultOf(h, req, views, contacts, end)
      && asked == AskedBefore(outs, Turns(outs))
      && Leaves(h, req, starts, contacts, Views(providers), end)
  {
    ghost var views := ViewsAt(starts, contacts);
    ghost var outs, saw := Outcomes(h, req, views, contacts), Sightings(h, req, views, contacts);
    SightingsAre(h, req, views, contacts);
    assert forall j :: 0 <= j < |starts| ==> Views(providers)[j] == providers[j].View();
    result, asked := Decided(h, req, providers, contacts, end, starts, outs, saw);
  }

  method Decided(h: ErrorHandler, req: BatchRequest, providers: seq<Provider>, contacts: seq<Contact>, end: Time,
                 ghost starts: seq<ProviderState>, ghost outs: seq<Outcome>, ghost saw: seq<bool>)
    returns (result: Result, asked: seq<nat>)
    requires |req.requests| > 0 && (!req.isBatch ==> |req.requests| == 1)
    requires Apart(providers) && |contacts| == |providers| == |starts|
    requires forall i :: 0 <= i < |contacts| ==> contacts[i].at <= end
    requires Describes(h, req, ViewsAt(starts, contacts), contacts, outs, saw)
    requires Reached(h, req, providers, starts, contacts, 0)
    modifies providers
    ensures result == Decide(outs, exists j :: 0 <= j < |saw| && saw[j],
                             Missing(h, req, ViewsAt(starts, contacts), contacts, end))
    ensures asked == AskedBefore(outs, Turns(outs))
    ensures Ended(h, req, starts, contacts, Views(providers), Turns(outs), end)
  {
    var i, f, last := TakeTurns(h, req, providers, contacts, starts, outs, saw);
    ghost var n := if i < |outs| then i + 1 else i;
    PassTime(h, req, providers, contacts, if i < |providers| then i + 1 else i, starts);
    EndsAsLeft(h, req, providers, starts, contacts, n, end);
    asked := f.asked;
    if i < |providers| {
      FirstFinalIs(outs, i);
      FinalIsAsked(outs, i);
      asked := asked + [i];
      result := if last.Served? then Answer(i, last.res) else Cancelled;
    } else {
      ConclusionDecides(outs, saw, f, Missing(h, req, ViewsAt(starts, contacts), contacts, end));
      result := Finish(h, req, providers, contacts, end, f, starts);
    }
  }

  lemma EndsAsLeft(h: ErrorHandler, req: BatchRequest, providers: seq<Provider>, starts: seq<ProviderState>,
                   contacts: seq<Contact>, n: nat, end: Time)
    requires |providers| == |starts| == |contacts|
    requires forall i :: 0 <= i < |contacts| ==> contacts[i].at <= end
    requires forall j: nat {:trigger EndReached(h, req, providers, starts, contacts, j)} ::
      j < n ==> EndReached(h, req, providers, starts, contacts, j)
    requires forall j :: n <= j < |starts| ==> providers[j].View() == starts[j]
    ensures Ended(h, req, starts, contacts, Views(providers), n, end)
  {
    forall i: nat | i < n && i < |starts|
      ensures Unchanged(Left(h, req, ViewsAt(starts, contacts)[i], contacts[i]), Views(providers)[i], end)
    {
      assert EndReached(h, req, providers, starts, contacts, i);
    }
  }

  lemma SightingsAre(h: ErrorHandler, req: BatchRequest, views: seq<ProviderState>, contacts: seq<Contact>)
    requires |views| == |contacts|
    ensures var outs, saw := Outcomes(h, req, views, contacts), Sightings(h, req, views, contacts);
      && Describes(h, req, views, contacts, outs, saw)
      && ((exists j :: 0 <= j < |saw| && saw[j]) <==> AnyUnsupported(h, req, views, contacts))
  {
    var saw := Sightings(h, req, views, contacts);
    if AnyUnsupported(h, req, views, contacts) {
      var j :| 0 <= j < |views| && SawUnsupported(h, req, views[j], contacts[j]);
      assert saw[j];
    }
  }

  ghost function Sightings(h: ErrorHandler, req: BatchRequest, views: seq<ProviderState>,
                           contacts: seq<Contact>): (saw: seq<bool>)
    requires |views| == |contacts|
    ensures |saw| == |views| && forall i :: 0 <= i < |saw| ==> saw[i] == SawUnsupported(h, req, views[i], contacts[i])
  {
    seq(|views|, i requires 0 <= i < |views| => SawUnsupported(h, req, views[i], contacts[i]))
  }

  /** After the loop: only a missing method, then a size limit, then an answer kept back. */
  method Finish(h: ErrorHandler, req: BatchRequest, providers: seq<Provider>, contacts: seq<Contact>, end: Time,
                f: Findings, ghost starts: seq<ProviderState>)
    returns (result: Result)
    requires Apart(providers) && |contacts| == |providers| == |starts|
    requires Ended(h, req, starts, contacts, Views(providers), |providers|, end)
    modifies providers
    ensures result == Conclude(f, Missing(h, req, ViewsAt(starts, contacts), contacts, end))
    ensures Ended(h, req, starts, contacts, Views(providers), |providers|, end)
  {
    if f.unsupported {
      ghost var reached := Views(providers);
      var missing := MethodsWithoutProvider(providers, req.requests, end, reached);
      MissingIs(h, req, starts, contacts, reached, end);
      StaysEnded(h, req, starts, contacts, reached, Views(providers), end);
      if missing != [] {
        return NoProviderForMethod(missing);
      }
    }
    if f.tooLarge {
      return RequestTooLarge;
    }
    if f.tryNext.Some? {
      return Answer(f.tryNext.value.0, f.tryNext.value.1);
    }
    return NoProvidersAvailable;
  }

  lemma StaysEnded(h: ErrorHandler, req: BatchRequest, starts: seq<ProviderState>, contacts: seq<Contact>,
                   was: seq<ProviderState>, now: seq<ProviderState>, end: Time)
    requires |starts| == |contacts| == |was| == |now|
    requires Ended(h, req, starts, contacts, was, |was|, end)
    requires forall i :: 0 <= i < |was| ==> Unchanged(was[i], now[i], end)
    ensures Ended(h, req, starts, contacts, now, |now|, end)
  {
    forall i | 0 <= i < |now|
      ensures Unchanged(Left(h, req, ViewsAt(starts, contacts)[i], contacts[i]), now[i], end)
    {
      assert Unchanged(was[i], now[i], end);
    }
  }

  lemma MissingIs(h: ErrorHandler, req: BatchRequest, starts: seq<ProviderState>, contacts: seq<Contact>,
                  reached: seq<ProviderState>, end: Time)
    requires |starts| == |contacts| == |reached| && Ended(h, req, starts, contacts, reached, |reached|, end)
    ensures Distinct(Names(req.requests), FlaggedEverywhere(Names(req.requests), reached, end))
      == Missing(h, req, ViewsAt(starts, contacts), contacts, end)
  {
    var views := ViewsAt(starts, contacts);
    forall i, m | 0 <= i < |reached|
      ensures Flagged(reached[i], m, end) == Flagged(Left(h, req, views[i], contacts[i]), m, end)
    {
      assert Unchanged(Left(h, req, views[i], contacts[i]), reached[i], end);
    }
    assert FlaggedEverywhere(Names(req.requests), reached, end) == MissingSet(h, req, views, contacts, end);
  }

  lemma FinalIsAsked(outs: seq<Outcome>, n: nat)
    requires n < |outs| && Final(outs[n])
    ensures AskedBefore(outs, n + 1) == AskedBefore(outs, n) + [n]
  {
  }

  lemma FirstFinalIs(outs: seq<Outcome>, n: nat)
    requires n <= |outs| && (n < |outs| ==> Final(outs[n]))
    requires forall j :: 0 <= j < n ==> !Final(outs[j])
    ensures FirstFinal(outs) == n
  {
  }
}
