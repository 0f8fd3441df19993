/** What a failover pass promises: who is blamed, who is flagged, what the client gets. */
module FailoverLaws {
  import opened Wrappers
  import opened Rpc
  import opened Chains
  import opened Providers
  import opened Traffic
  import opened Upstream
  import opened ResponseMethods
  import opened Failover

  // -------------------------------------------------------------------- the answer

  /** The provider answered in JSON-RPC, even if under a failing status. */
  predicate Speaks(raw: Raw) {
    raw.Http? && raw.status !in {402, 429} && raw.body.Some? && (raw.status == 200 || HasError(raw.body.value))
  }

  /** The provider's answer is one for the client: every member is answered, and each error in it is
      one the client should see. */
  ghost predicate Serves(h: ErrorHandler, req: BatchRequest, p: ProviderState, c: Contact) {
    && Asked(p, req.requests, c) && !c.cancelled && Speaks(c.raw)
    && var rs := c.raw.body.value.responses;
       |rs| == |req.requests| && forall i :: 0 <= i < |rs| && IsError(rs[i]) ==> h(rs[i]).Keep?
  }

  /** What the client is shown of it. */
  function Shown(req: BatchRequest, raw: Raw): BatchResponse
    requires Speaks(raw)
  {
    BatchResponse(raw.body.value.responses, req.isBatch)
  }

  /** A provider serves a request exactly when its answer is one for the client. */
  lemma ServedExactly(h: ErrorHandler, req: BatchRequest, p: ProviderState, c: Contact, shown: BatchResponse)
    ensures OutcomeOf(h, req, p, c) == Served(shown) <==> Serves(h, req, p, c) && shown == Shown(req, c.raw)
  {
    if Asked(p, req.requests, c) && !c.cancelled && Speaks(c.raw) {
      var rs := c.raw.body.value.responses;
      forall i | 0 <= i < |rs|
        ensures IsError(rs[i]) && !h(rs[i]).Keep? <==> Stops(h, rs[i]) || SaysUnsupported(h, rs[i])
      {
      }
    }
  }

  // --------------------------------------------------------------------- the blame

  /** The response at position n is the first error that is neither about a missing method nor for
      the client. */
  ghost predicate FirstOther(h: ErrorHandler, rs: seq<Rpc.Response>, n: nat) {
    n < |rs| && IsError(rs[n]) && !h(rs[n]).Keep? && !h(rs[n]).NotSupported?
    && forall i :: 0 <= i < n && IsError(rs[i]) ==> h(rs[i]).Keep? || h(rs[i]).NotSupported?
  }

  /** That error says the provider is unhealthy. */
  ghost predicate ConfessesFault(h: ErrorHandler, rs: seq<Rpc.Response>) {
    exists n: nat :: FirstOther(h, rs, n) && h(rs[n]).Unhealthy?
  }

  /** That error says another provider may do. */
  ghost predicate PointsElsewhere(h: ErrorHandler, rs: seq<Rpc.Response>) {
    exists n: nat :: FirstOther(h, rs, n) && h(rs[n]).TryNext?
  }

  /** What the provider did is its own fault. */
  ghost predicate AtFault(h: ErrorHandler, req: BatchRequest, raw: Raw) {
    if Speaks(raw) then
      |raw.body.value.responses| != |req.requests| || ConfessesFault(h, raw.body.value.responses)
    else
      raw.NoResponse? || (raw.status != 413 && !(raw.status == 501 && |req.requests| == 1))
  }

  lemma FirstStopDecides(h: ErrorHandler, rs: seq<Rpc.Response>)
    ensures forall n: nat :: FirstOther(h, rs, n) <==> n == FirstStop(h, rs) < |rs|
  {
    var n := FirstStop(h, rs);
    forall i | 0 <= i < |rs|
      ensures Stops(h, rs[i]) <==> IsError(rs[i]) && !h(rs[i]).Keep? && !h(rs[i]).NotSupported?
    {
    }
    forall k: nat | FirstOther(h, rs, k)
      ensures k == n
    {
      assert Stops(h, rs[k]);
    }
  }

  lemma FaultyExactly(h: ErrorHandler, req: BatchRequest, p: ProviderState, c: Contact)
    ensures OutcomeOf(h, req, p, c).Faulty? <==> Asked(p, req.requests, c) && !c.cancelled && AtFault(h, req, c.raw)
  {
    if Speaks(c.raw) {
      FirstStopDecides(h, c.raw.body.value.responses);
    }
  }

  /** An online provider comes out of its turn offline exactly when the traffic during its call leaves it
      offline, or the client stays for the answer and the fault is its own. */
  lemma BlameIsExact(h: ErrorHandler, req: BatchRequest, p: ProviderState, c: Contact)
    requires p.online
    ensures !Health(h, req, p, c).online <==>
      Asked(p, req.requests, c) && (!Returned(p, c).online || (!c.cancelled && AtFault(h, req, c.raw)))
  {
    FaultyExactly(h, req, p, c);
  }

  /** The call itself leaves nothing but a back-off, and that only if the provider throttled it. */
  lemma CallLeavesLittle(p: ProviderState, c: Contact)
    ensures !Throttled(c.raw) ==> Returned(p, c) == After(p, c.meanwhile + c.aside)
    ensures Returned(p, c).online <==> After(p, c.meanwhile + c.aside).online
  {
    AfterMore(p, c.meanwhile, c.aside);
    var was := After(p, c.meanwhile);
    OnlineExactly(was, c.aside);
    OnlineExactly(AfterCall(was, c.raw, c.done), c.aside);
  }

  /** No turn brings an offline provider back, and one that is not at fault, or whose client has gone,
      keeps the health it has when its call returns. */
  lemma InnocentIsUntouched(h: ErrorHandler, req: BatchRequest, p: ProviderState, c: Contact)
    ensures !p.online ==> Health(h, req, p, c) == p
    ensures Asked(p, req.requests, c) && (c.cancelled || !AtFault(h, req, c.raw)) ==>
      Health(h, req, p, c) == Returned(p, c)
    ensures Asked(p, req.requests, c) && !AtFault(h, req, c.raw) ==>
      Health(h, req, p, c) == After(p, c.meanwhile + c.aside)
  {
    FaultyExactly(h, req, p, c);
    CallLeavesLittle(p, c);
  }

  /** A provider that answered, whether it served or sent the request elsewhere, is never blamed. */
  lemma HelpfulIsUntouched(h: ErrorHandler, req: BatchRequest, p: ProviderState, c: Contact)
    requires OutcomeOf(h, req, p, c).Served? || OutcomeOf(h, req, p, c).TryElsewhere?
      || OutcomeOf(h, req, p, c).TooLarge? || OutcomeOf(h, req, p, c).Unsupported?
    ensures !AtFault(h, req, c.raw) && Health(h, req, p, c) == After(p, c.meanwhile + c.aside)
  {
    FaultyExactly(h, req, p, c);
    InnocentIsUntouched(h, req, p, c);
  }

  const CLIENT_MISTAKES: set<int> := {-32700, -32600, -32602}

  /** Parse errors, invalid requests and invalid parameters go back to the client, alone or beside
      results, on every chain and under any status but a rate limit; they take no provider out. */
  lemma ClientMistakesBlameNobody(kind: Kind, req: BatchRequest, p: ProviderState, c: Contact)
    requires Asked(p, req.requests, c) && !c.cancelled && Speaks(c.raw)
    requires var rs := c.raw.body.value.responses;
      |rs| == |req.requests| && forall i :: 0 <= i < |rs| && IsError(rs[i]) ==> GetError(rs[i]).0 in CLIENT_MISTAKES
    ensures OutcomeOf(HandlerOf(kind), req, p, c) == Served(Shown(req, c.raw))
    ensures Health(HandlerOf(kind), req, p, c) == After(p, c.meanwhile + c.aside)
  {
    var h, rs := HandlerOf(kind), c.raw.body.value.responses;
    forall i | 0 <= i < |rs| && IsError(rs[i])
      ensures h(rs[i]).Keep?
    {
      MistakesAreKept(kind, rs[i]);
    }
    ServedIsUntouched(h, req, p, c);
  }

  lemma MistakesAreKept(kind: Kind, r: Rpc.Response)
    requires GetError(r).0 in CLIENT_MISTAKES
    ensures HandlerOf(kind)(r).Keep?
  {
  }

  lemma ServedIsUntouched(h: ErrorHandler, req: BatchRequest, p: ProviderState, c: Contact)
    requires Serves(h, req, p, c)
    ensures OutcomeOf(h, req, p, c) == Served(Shown(req, c.raw))
    ensures Health(h, req, p, c) == After(p, c.meanwhile + c.aside)
  {
    ServedExactly(h, req, p, c, Shown(req, c.raw));
    HelpfulIsUntouched(h, req, p, c);
  }

  // --------------------------------------------------------------------- the flags

  /** The response at position i denies a method that has a name. */
  ghost predicate DeniesNamed(h: ErrorHandler, reqs: seq<Request>, rs: seq<Rpc.Response>, i: nat) {
    i < FirstStop(h, rs) && |rs| == |reqs| && SaysUnsupported(h, rs[i]) && MethodFor(reqs, ResKey(rs[i]), i) != ""
  }

  /** A turn flags the provider exactly when it was asked, the client stayed, and it denied a named
      method: a single request by its status, or any by an error the scan reaches. */
  lemma FlagsExactly(h: ErrorHandler, req: BatchRequest, p: ProviderState, c: Contact)
    ensures (exists name :: Flags(h, req, p, c, name)) <==>
      && Asked(p, req.requests, c) && !c.cancelled
      && (match Classify(c.raw)
          case Failed(f) => f.NotImplemented? && |req.requests| == 1 && req.requests[0].methodName != ""
          case Answered(res) => exists i: nat :: DeniesNamed(h, req.requests, res.responses, i))
  {
    if Asked(p, req.requests, c) && !c.cancelled {
      match Classify(c.raw)
      case Failed(f) =>
        if f.NotImplemented? && |req.requests| == 1 && req.requests[0].methodName != "" {
          assert Flags(h, req, p, c, req.requests[0].methodName);
        }
      case Answered(res) => AnswerFlagsExactly(h, req, p, c);
    }
  }

  lemma AnswerFlagsExactly(h: ErrorHandler, req: BatchRequest, p: ProviderState, c: Contact)
    requires Asked(p, req.requests, c) && !c.cancelled && Classify(c.raw).Answered?
    ensures (exists name :: Flags(h, req, p, c, name))
      <==> exists i: nat :: DeniesNamed(h, req.requests, Classify(c.raw).res.responses, i)
  {
    var rs := Classify(c.raw).res.responses;
    if i: nat :| DeniesNamed(h, req.requests, rs, i) {
      assert Flags(h, req, p, c, MethodFor(req.requests, ResKey(rs[i]), i));
    }
    if name :| Flags(h, req, p, c, name) {
      var i :| 0 <= i < FirstStop(h, rs) && SaysUnsupported(h, rs[i])
        && name == MethodFor(req.requests, ResKey(rs[i]), i);
      assert DeniesNamed(h, req.requests, rs, i);
    }
  }

  /** A provider that serves, finds the request too large or is given up on is not flagged. */
  lemma OnlyDenialsFlag(h: ErrorHandler, req: BatchRequest, p: ProviderState, c: Contact, name: string)
    requires Flags(h, req, p, c, name)
    ensures SawUnsupported(h, req, p, c)
    ensures !OutcomeOf(h, req, p, c).Served? && !OutcomeOf(h, req, p, c).TooLarge?
      && !OutcomeOf(h, req, p, c).Abandoned?
  {
  }

  predicate AllNamed(reqs: seq<Request>) { forall i :: 0 <= i < |reqs| ==> reqs[i].methodName != "" }

  lemma MethodForIsNamed(reqs: seq<Request>, key: string, i: nat)
    requires i < |reqs| && AllNamed(reqs)
    ensures MethodFor(reqs, key, i) != ""
  {
  }

  /** When every request names a method, any denial by an asked provider sets a flag. */
  lemma NamedDenialsFlag(h: ErrorHandler, req: BatchRequest, p: ProviderState, c: Contact)
    requires |req.requests| > 0 && AllNamed(req.requests)
    ensures (exists name :: Flags(h, req, p, c, name)) <==> Asked(p, req.requests, c) && SawUnsupported(h, req, p, c)
  {
    FlagsExactly(h, req, p, c);
    if Asked(p, req.requests, c) && SawUnsupported(h, req, p, c) && Classify(c.raw).Answered? {
      var rs := Classify(c.raw).res.responses;
      var i :| 0 <= i < FirstStop(h, rs) && SaysUnsupported(h, rs[i]);
      MethodForIsNamed(req.requests, ResKey(rs[i]), i);
      assert DeniesNamed(h, req.requests, rs, i);
    }
  }

  /** The empty name is never flagged, so it is never reported as missing, whatever else is in the batch. */
  lemma UnnamedIsNeverMissing(h: ErrorHandler, req: BatchRequest, views: seq<ProviderState>, contacts: seq<Contact>,
                              end: Time)
    requires |views| == |contacts| && forall i :: 0 <= i < |views| ==> "" !in views[i].unsupported
    ensures views != [] ==> "" !in Missing(h, req, views, contacts, end)
    ensures (forall i :: 0 <= i < |req.requests| ==> req.requests[i].methodName == "") ==>
      !ResultOf(h, req, views, contacts, end).NoProviderForMethod?
  {
    if views != [] {
      NoEmptyFlagLeft(h, req, views[0], contacts[0]);
      MissingMeans(h, req, views, contacts, end, "");
      assert !Flagged(Left(h, req, views[0], contacts[0]), "", end);
      if forall i :: 0 <= i < |req.requests| ==> req.requests[i].methodName == "" {
        assert MissingSet(h, req, views, contacts, end) == {};
        NothingWanted(Names(req.requests));
      }
    }
    ErrorExactly(Outcomes(h, req, views, contacts), AnyUnsupported(h, req, views, contacts),
                 Missing(h, req, views, contacts, end));
  }

  lemma NoEmptyFlagLeft(h: ErrorHandler, req: BatchRequest, p: ProviderState, c: Contact)
    requires "" !in p.unsupported
    ensures "" !in Left(h, req, p, c).unsupported
  {
    NoEmptyFlag(p, c.meanwhile);
    NoEmptyFlag(AfterCall(After(p, c.meanwhile), c.raw, c.done), c.aside);
    NoEmptyFlag(Settled(h, req, p, c), c.after);
  }

  lemma {:induction false} NoEmptyFlag(p: ProviderState, events: seq<Event>)
    requires "" !in p.unsupported
    ensures "" !in After(p, events).unsupported
  {
    if events != [] {
      NoEmptyFlag(p, events[..|events| - 1]);
    }
  }

  /** Nobody else denies a method to the provider during the pass. */
  predicate NobodyElseDenies(c: Contact) {
    && (forall i :: 0 <= i < |c.meanwhile| ==> !c.meanwhile[i].Denial?)
    && (forall i :: 0 <= i < |c.aside| ==> !c.aside[i].Denial?)
    && (forall i :: 0 <= i < |c.after| ==> !c.after[i].Denial?)
  }

  /** A provider that was asked and not flagged supports, as far as is known, all that was requested. */
  lemma UnflaggedSupports(h: ErrorHandler, req: BatchRequest, p: ProviderState, c: Contact, name: string, end: Time)
    requires Asked(p, req.requests, c) && c.at <= end && NobodyElseDenies(c) && name in Names(req.requests)
    requires !Flags(h, req, p, c, name)
    ensures !Flagged(Left(h, req, p, c), name, end)
  {
    assert !Flagged(p, name, c.at);
    NoDenialNoFlag(p, c.meanwhile, name, end);
    NoDenialNoFlag(AfterCall(After(p, c.meanwhile), c.raw, c.done), c.aside, name, end);
    SettledFlags(h, req, p, c, name, end);
    NoDenialNoFlag(Settled(h, req, p, c), c.after, name, end);
  }

  /** When everybody asked denies only members that name no method, nothing is flagged and no method is
      missing: no provider is said to be available, although each was there and answered. */
  lemma UnnamedDenialsEndUnavailable(h: ErrorHandler, req: BatchRequest, views: seq<ProviderState>,
                                     contacts: seq<Contact>, end: Time)
    requires |views| == |contacts|
    requires forall i :: 0 <= i < |views| ==>
      OutcomeOf(h, req, views[i], contacts[i]).Unsupported? || OutcomeOf(h, req, views[i], contacts[i]).Offline?
    requires forall i, name :: 0 <= i < |views| ==> !Flags(h, req, views[i], contacts[i], name)
    requires forall i :: 0 <= i < |views| ==> contacts[i].at <= end && NobodyElseDenies(contacts[i])
    ensures ResultOf(h, req, views, contacts, end) == NoProvidersAvailable
  {
    var outs := Outcomes(h, req, views, contacts);
    if AnyUnsupported(h, req, views, contacts) {
      var i :| 0 <= i < |views| && SawUnsupported(h, req, views[i], contacts[i]);
      forall m | m in Names(req.requests)
        ensures m !in MissingSet(h, req, views, contacts, end)
      {
        UnflaggedSupports(h, req, views[i], contacts[i], m, end);
      }
      assert MissingSet(h, req, views, contacts, end) == {};
      NothingWanted(Names(req.requests));
    }
    ErrorExactly(outs, AnyUnsupported(h, req, views, contacts), Missing(h, req, views, contacts, end));
  }

  lemma {:induction false} NothingWanted(names: seq<string>)
    ensures Distinct(names, {}) == []
  {
    if names != [] {
      NothingWanted(names[..|names| - 1]);
    }
  }

  /** It happens: one request without a method, one fresh provider, and status 501. */
  lemma UnnamedRequestIsDenied(h: ErrorHandler)
    ensures var req := BatchRequest([Request(Number("1", Some(1)), "", "")], false);
      var p := ProviderState(true, 0, None, None, map[]);
      var c := Contact([], 0, Http(501, None, None), [], 1, false, [], []);
      && Asked(p, req.requests, c) && OutcomeOf(h, req, p, c).Unsupported?
      && (forall name :: !Flags(h, req, p, c, name))
      && ResultOf(h, req, [p], [c], 2) == NoProvidersAvailable
  {
    var req := BatchRequest([Request(Number("1", Some(1)), "", "")], false);
    var p := ProviderState(true, 0, None, None, map[]);
    var c := Contact([], 0, Http(501, None, None), [], 1, false, [], []);
    UnnamedDenialsEndUnavailable(h, req, [p], [c], 2);
  }

  // ----------------------------------------------------------------------- the result

  predicate Unfinished(outs: seq<Outcome>, n: nat)
    requires n <= |outs|
  {
    forall i :: 0 <= i < n ==> !Final(outs[i])
  }

  lemma FirstFinalFrom(outs: seq<Outcome>, n: nat)
    requires n <= |outs| && Unfinished(outs, n) && (n < |outs| ==> Final(outs[n]))
    ensures FirstFinal(outs) == n
  {
  }

  /** The client gets the first serving provider's answer, or failing that the last one that
      was sent elsewhere, but only if no better explanation exists. */
  lemma AnswerExactly(outs: seq<Outcome>, unsupported: bool, missing: seq<string>, i: nat, res: BatchResponse)
    ensures Decide(outs, unsupported, missing) == Answer(i, res) <==>
      || (i < |outs| && outs[i] == Served(res) && Unfinished(outs, i))
      || (&& i < |outs| && outs[i] == TryElsewhere(res) && Unfinished(outs, |outs|)
          && !(unsupported && missing != []) && TooLarge !in outs
          && forall j :: i < j < |outs| ==> !outs[j].TryElsewhere?)
  {
    if i < |outs| && outs[i].Served? && Unfinished(outs, i) {
      FirstFinalFrom(outs, i);
    }
    if Unfinished(outs, |outs|) {
      FirstFinalFrom(outs, |outs|);
    }
  }

  /** Every answer, served or kept back, has one response per request and the client's shape. */
  lemma AnswersKeepShape(h: ErrorHandler, req: BatchRequest, views: seq<ProviderState>, contacts: seq<Contact>,
                         end: Time)
    requires |views| == |contacts|
    ensures var result := ResultOf(h, req, views, contacts, end);
      result.Answer? ==> |result.res.responses| == |req.requests| && result.res.isBatch == req.isBatch
  {
    var result := ResultOf(h, req, views, contacts, end);
    if result.Answer? {
      AnswerExactly(Outcomes(h, req, views, contacts), AnyUnsupported(h, req, views, contacts),
                    Missing(h, req, views, contacts, end), result.provider, result.res);
    }
  }

  /** When the client gets one of the errors instead. */
  lemma ErrorExactly(outs: seq<Outcome>, unsupported: bool, missing: seq<string>)
    ensures var result := Decide(outs, unsupported, missing);
      var through := Unfinished(outs, |outs|);
      && (result.NoProviderForMethod? <==> through && unsupported && missing != [])
      && (result.NoProviderForMethod? ==> result.methods == missing)
      && (result.RequestTooLarge? <==> through && !(unsupported && missing != []) && TooLarge in outs)
      && (result.NoProvidersAvailable? <==>
            && through && !(unsupported && missing != [])
            && forall i :: 0 <= i < |outs| ==> outs[i] != TooLarge && !outs[i].TryElsewhere?)
      && (result.Cancelled? <==> exists i :: 0 <= i < |outs| && outs[i].Abandoned? && Unfinished(outs, i))
  {
    if Unfinished(outs, |outs|) {
      FirstFinalFrom(outs, |outs|);
    }
    if i :| 0 <= i < |outs| && outs[i].Abandoned? && Unfinished(outs, i) {
      FirstFinalFrom(outs, i);
    }
  }

  /** Nobody is asked twice, everybody in list order, and only those with a chance. */
  lemma {:induction false} AskedInOrder(outs: seq<Outcome>, n: nat)
    requires n <= |outs|
    ensures forall i: nat :: i in AskedBefore(outs, n) <==> i < n && !outs[i].Offline? && !outs[i].Incapable?
    ensures forall a, b :: 0 <= a < b < |AskedBefore(outs, n)| ==> AskedBefore(outs, n)[a] < AskedBefore(outs, n)[b]
  {
    if n > 0 {
      AskedInOrder(outs, n - 1);
      var before := AskedBefore(outs, n - 1);
      forall a | 0 <= a < |before|
        ensures before[a] < n - 1
      {
        assert before[a] in before;
      }
    }
  }

  // ------------------------------------------------------------- asking once again

  /** The methods reported as missing are the requested ones that every provider, online or not, is
      flagged for when the pass ends, each listed once. */
  lemma MissingMeans(h: ErrorHandler, req: BatchRequest, views: seq<ProviderState>, contacts: seq<Contact>,
                     end: Time, name: string)
    requires |views| == |contacts|
    ensures var missing := Missing(h, req, views, contacts, end);
      && (name in missing <==>
            && (exists k :: 0 <= k < |req.requests| && req.requests[k].methodName == name)
            && (forall i :: 0 <= i < |views| ==> Flagged(Left(h, req, views[i], contacts[i]), name, end)))
      && (forall i, j :: 0 <= i < j < |missing| ==> missing[i] != missing[j])
  {
    DistinctListsEachOnce(Names(req.requests), MissingSet(h, req, views, contacts, end));
    if k :| 0 <= k < |req.requests| && req.requests[k].methodName == name {
      assert Names(req.requests)[k] == name;
    }
  }

  /** Without traffic after its turn, a provider is flagged at the end for what its turn flagged it for
      and for what it was flagged for already. */
  lemma QuietFlags(h: ErrorHandler, req: BatchRequest, p: ProviderState, c: Contact, name: string, end: Time)
    requires c.meanwhile == [] && c.aside == [] && c.after == []
    ensures Flagged(Left(h, req, p, c), name, end)
      <==> if Flags(h, req, p, c, name) then end - c.done <= UNSUPPORTED_METHOD_TTL else Flagged(p, name, end)
  {
    SettledFlags(h, req, p, c, name, end);
  }

  /** Everybody online is passed over. */
  ghost predicate AllBarred(h: ErrorHandler, req: BatchRequest, views: seq<ProviderState>, contacts: seq<Contact>)
    requires |views| == |contacts|
  {
    forall i {:trigger views[i]} :: 0 <= i < |views| ==>
      && OutcomeOf(h, req, views[i], contacts[i]) == (if views[i].online then Incapable else Offline)
      && (SawUnsupported(h, req, views[i], contacts[i]) <==> views[i].online)
      && !Asked(views[i], req.requests, contacts[i])
  }

  /** Once a pass reports a missing method, repeating the request at that moment asks nobody,
      and is told the same unless every provider is offline by then. */
  lemma RepeatAsksNobody(h: ErrorHandler, req: BatchRequest, views: seq<ProviderState>, contacts: seq<Contact>,
                         later: seq<ProviderState>, again: seq<Contact>, end: Time)
    requires |views| == |contacts| == |later| == |again|
    requires ResultOf(h, req, views, contacts, end).NoProviderForMethod?
    requires forall i :: 0 <= i < |views| ==> Unchanged(Left(h, req, views[i], contacts[i]), later[i], end)
    requires forall i :: 0 <= i < |views| ==> again[i].at == end && again[i].after == []
    ensures AskedBefore(Outcomes(h, req, later, again), |later|) == []
    ensures ResultOf(h, req, later, again, end) ==
      if exists i :: 0 <= i < |later| && later[i].online then ResultOf(h, req, views, contacts, end)
      else NoProvidersAvailable
  {
    var missing := Missing(h, req, views, contacts, end);
    ErrorExactly(Outcomes(h, req, views, contacts), AnyUnsupported(h, req, views, contacts), missing);
    MissingMeans(h, req, views, contacts, end, missing[0]);
    forall i {:trigger later[i]} | 0 <= i < |later|
      ensures Flagged(later[i], missing[0], again[i].at)
    {
      assert Flagged(Left(h, req, views[i], contacts[i]), missing[0], end);
    }
    FlagBarsAll(h, req, later, again, missing[0]);
    MissingAgain(h, req, views, contacts, later, again, end);
    BarredResult(h, req, later, again, end);
  }

  lemma BarredResult(h: ErrorHandler, req: BatchRequest, views: seq<ProviderState>, contacts: seq<Contact>, end: Time)
    requires |views| == |contacts| && AllBarred(h, req, views, contacts) && Missing(h, req, views, contacts, end) != []
    ensures AskedBefore(Outcomes(h, req, views, contacts), |views|) == []
    ensures ResultOf(h, req, views, contacts, end) ==
      if exists i :: 0 <= i < |views| && views[i].online then NoProviderForMethod(Missing(h, req, views, contacts, end))
      else NoProvidersAvailable
  {
    var outs := Outcomes(h, req, views, contacts);
    forall i | 0 <= i < |outs|
      ensures outs[i].Offline? || outs[i].Incapable?
    {
      assert outs[i] == OutcomeOf(h, req, views[i], contacts[i]);
    }
    NobodyAsked(outs, |outs|);
    ErrorExactly(outs, AnyUnsupported(h, req, views, contacts), Missing(h, req, views, contacts, end));
  }

  lemma FlagBarsAll(h: ErrorHandler, req: BatchRequest, views: seq<ProviderState>, contacts: seq<Contact>, name: string)
    requires |views| == |contacts|
    requires forall i {:trigger views[i]} :: 0 <= i < |views| ==> Flagged(views[i], name, contacts[i].at)
    requires exists k :: 0 <= k < |req.requests| && req.requests[k].methodName == name
    ensures AllBarred(h, req, views, contacts)
  {
    forall i {:trigger views[i]} | 0 <= i < |views|
      ensures OutcomeOf(h, req, views[i], contacts[i]) == (if views[i].online then Incapable else Offline)
      ensures SawUnsupported(h, req, views[i], contacts[i]) <==> views[i].online
      ensures !Asked(views[i], req.requests, contacts[i])
    {
      FlagBars(h, req, views[i], contacts[i], name);
    }
  }

  lemma FlagBars(h: ErrorHandler, req: BatchRequest, p: ProviderState, c: Contact, name: string)
    requires Flagged(p, name, c.at)
    requires exists k :: 0 <= k < |req.requests| && req.requests[k].methodName == name
    ensures OutcomeOf(h, req, p, c) == if p.online then Incapable else Offline
    ensures SawUnsupported(h, req, p, c) <==> p.online
    ensures !Asked(p, req.requests, c)
  {
    assert !Capable(p, req.requests, c.at);
  }

  lemma {:induction false} NobodyAsked(outs: seq<Outcome>, n: nat)
    requires n <= |outs| && forall i :: 0 <= i < n ==> outs[i].Offline? || outs[i].Incapable?
    ensures AskedBefore(outs, n) == []
  {
    if n > 0 {
      NobodyAsked(outs, n - 1);
    }
  }

  lemma MissingAgain(h: ErrorHandler, req: BatchRequest, views: seq<ProviderState>, contacts: seq<Contact>,
                     later: seq<ProviderState>, again: seq<Contact>, end: Time)
    requires |views| == |contacts| == |later| == |again|
    requires forall i :: 0 <= i < |views| ==> Unchanged(Left(h, req, views[i], contacts[i]), later[i], end)
    requires forall i :: 0 <= i < |views| ==> again[i].after == []
    requires AllBarred(h, req, later, again)
    ensures Missing(h, req, later, again, end) == Missing(h, req, views, contacts, end)
  {
    forall i, m | 0 <= i < |views|
      ensures Flagged(Left(h, req, later[i], again[i]), m, end) == Flagged(Left(h, req, views[i], contacts[i]), m, end)
    {
      assert Left(h, req, later[i], again[i]) == later[i];
    }
    assert MissingSet(h, req, later, again, end) == MissingSet(h, req, views, contacts, end);
  }

  // ------------------------------------------------------------------ the whole pass

  /** The client gives up on this provider. */
  predicate Quits(req: BatchRequest, p: ProviderState, c: Contact) { Asked(p, req.requests, c) && c.cancelled }

  /** The provider finds the request too large. */
  predicate Declines(req: BatchRequest, p: ProviderState, c: Contact) {
    Asked(p, req.requests, c) && !c.cancelled && !Speaks(c.raw) && c.raw.Http? && c.raw.status == 413
  }

  /** The provider's answer points to another one. */
  ghost predicate SendsElsewhere(h: ErrorHandler, req: BatchRequest, p: ProviderState, c: Contact) {
    && Asked(p, req.requests, c) && !c.cancelled && Speaks(c.raw)
    && |c.raw.body.value.responses| == |req.requests| && PointsElsewhere(h, c.raw.body.value.responses)
  }

  lemma OutcomesAre(h: ErrorHandler, req: BatchRequest, p: ProviderState, c: Contact)
    ensures OutcomeOf(h, req, p, c).Served? <==> Serves(h, req, p, c)
    ensures Serves(h, req, p, c) ==> OutcomeOf(h, req, p, c) == Served(Shown(req, c.raw))
    ensures OutcomeOf(h, req, p, c).Abandoned? <==> Quits(req, p, c)
    ensures OutcomeOf(h, req, p, c).TooLarge? <==> Declines(req, p, c)
    ensures OutcomeOf(h, req, p, c).TryElsewhere? <==> SendsElsewhere(h, req, p, c)
    ensures SendsElsewhere(h, req, p, c) ==> OutcomeOf(h, req, p, c) == TryElsewhere(Shown(req, c.raw))
  {
    if Serves(h, req, p, c) {
      ServedExactly(h, req, p, c, Shown(req, c.raw));
    }
    if OutcomeOf(h, req, p, c).Served? {
      ServedExactly(h, req, p, c, OutcomeOf(h, req, p, c).res);
    }
    if Asked(p, req.requests, c) && !c.cancelled && Speaks(c.raw) {
      FirstStopDecides(h, c.raw.body.value.responses);
    }
  }

  /** No provider before n serves, and the client stays with all of them. */
  ghost predicate Fruitless(h: ErrorHandler, req: BatchRequest, views: seq<ProviderState>, contacts: seq<Contact>,
                            n: nat)
    requires n <= |views| == |contacts|
  {
    forall i {:trigger views[i]} :: 0 <= i < n ==>
      !Serves(h, req, views[i], contacts[i]) && !Quits(req, views[i], contacts[i])
  }

  lemma FruitlessIsUnfinished(h: ErrorHandler, req: BatchRequest, views: seq<ProviderState>, contacts: seq<Contact>,
                              n: nat)
    requires n <= |views| == |contacts|
    ensures Fruitless(h, req, views, contacts, n) <==> Unfinished(Outcomes(h, req, views, contacts), n)
  {
    forall i | 0 <= i < n
      ensures Final(Outcomes(h, req, views, contacts)[i])
        <==> Serves(h, req, views[i], contacts[i]) || Quits(req, views[i], contacts[i])
    {
      OutcomesAre(h, req, views[i], contacts[i]);
    }
  }

  /** The whole pass ends with the answer of provider i exactly when it is the first to serve, or nobody
      serves, it is the last that sent the request elsewhere, and there is no better explanation. */
  lemma PassAnswersExactly(h: ErrorHandler, req: BatchRequest, views: seq<ProviderState>, contacts: seq<Contact>,
                           end: Time, i: nat, shown: BatchResponse)
    requires i < |views| == |contacts|
    ensures ResultOf(h, req, views, contacts, end) == Answer(i, shown) <==>
      || (Serves(h, req, views[i], contacts[i]) && shown == Shown(req, contacts[i].raw)
          && Fruitless(h, req, views, contacts, i))
      || (&& SendsElsewhere(h, req, views[i], contacts[i]) && shown == Shown(req, contacts[i].raw)
          && Fruitless(h, req, views, contacts, |views|)
          && !(AnyUnsupported(h, req, views, contacts) && Missing(h, req, views, contacts, end) != [])
          && (forall j :: 0 <= j < |views| ==> !Declines(req, views[j], contacts[j]))
          && (forall j :: i < j < |views| ==> !SendsElsewhere(h, req, views[j], contacts[j])))
  {
    var outs := Outcomes(h, req, views, contacts);
    forall j | 0 <= j < |views|
      ensures outs[j] == TooLarge <==> Declines(req, views[j], contacts[j])
      ensures outs[j].TryElsewhere? <==> SendsElsewhere(h, req, views[j], contacts[j])
    {
      OutcomesAre(h, req, views[j], contacts[j]);
    }
    OutcomesAre(h, req, views[i], contacts[i]);
    FruitlessIsUnfinished(h, req, views, contacts, i);
    FruitlessIsUnfinished(h, req, views, contacts, |views|);
    AnswerExactly(outs, AnyUnsupported(h, req, views, contacts), Missing(h, req, views, contacts, end), i, shown);
  }

  /** And with which error it ends otherwise. */
  lemma PassFailsExactly(h: ErrorHandler, req: BatchRequest, views: seq<ProviderState>, contacts: seq<Contact>,
                         end: Time)
    requires |views| == |contacts|
    ensures var result, missing := ResultOf(h, req, views, contacts, end), Missing(h, req, views, contacts, end);
      var through := Fruitless(h, req, views, contacts, |views|);
      var denied := AnyUnsupported(h, req, views, contacts) && missing != [];
      && (result.NoProviderForMethod? <==> through && denied)
      && (result.NoProviderForMethod? ==> result.methods == missing)
      && (result.RequestTooLarge? <==>
        through && !denied && exists i :: 0 <= i < |views| && Declines(req, views[i], contacts[i]))
      && (result.NoProvidersAvailable? <==> through && !denied && forall i :: 0 <= i < |views| ==>
            !Declines(req, views[i], contacts[i]) && !SendsElsewhere(h, req, views[i], contacts[i]))
      && (result.Cancelled? <==>
            exists i :: 0 <= i < |views| && Quits(req, views[i], contacts[i]) && Fruitless(h, req, views, contacts, i))
  {
    var outs := Outcomes(h, req, views, contacts);
    forall j | 0 <= j < |views|
      ensures outs[j] == TooLarge <==> Declines(req, views[j], contacts[j])
      ensures outs[j].TryElsewhere? <==> SendsElsewhere(h, req, views[j], contacts[j])
      ensures outs[j].Abandoned? <==> Quits(req, views[j], contacts[j])
      ensures Fruitless(h, req, views, contacts, j) <==> Unfinished(outs, j)
    {
      OutcomesAre(h, req, views[j], contacts[j]);
      FruitlessIsUnfinished(h, req, views, contacts, j);
    }
    FruitlessIsUnfinished(h, req, views, contacts, |views|);
    ErrorExactly(outs, AnyUnsupported(h, req, views, contacts), Missing(h, req, views, contacts, end));
  }

  /** Blame over the whole pass: a provider that has its turn comes out of it online exactly when it was
      when its turn came and, if it was asked, neither the traffic nor its own fault took it out; at
      the end it is online exactly when no fault has come since, or since it last recovered, and it
      came out online or did recover. One without a turn stays what it was. */
  lemma PassBlamesExactly(h: ErrorHandler, req: BatchRequest, starts: seq<ProviderState>, contacts: seq<Contact>,
                          ends: seq<ProviderState>, end: Time, i: nat)
    requires i < |starts| == |contacts| == |ends| && Leaves(h, req, starts, contacts, ends, end)
    ensures var p, c := After(starts[i], contacts[i].before), contacts[i];
      var out := Settled(h, req, p, c).online;
      var asked := Asked(p, req.requests, c);
      && (out <==> p.online && (asked ==> Returned(p, c).online && (c.cancelled || !AtFault(h, req, c.raw))))
      && if Fruitless(h, req, ViewsAt(starts, contacts), contacts, i)
         then ends[i].online <==> FaultsSince(c.after) == 0 && (out || Recovered(c.after))
         else ends[i] == starts[i]
  {
    var views := ViewsAt(starts, contacts);
    FruitlessIsUnfinished(h, req, views, contacts, i);
    assert Unfinished(Outcomes(h, req, views, contacts), i) <==> i < Turns(Outcomes(h, req, views, contacts));
    var p, c := views[i], contacts[i];
    if p.online {
      BlameIsExact(h, req, p, c);
    }
    SettledFlags(h, req, p, c, "", end);
    OnlineExactly(Settled(h, req, p, c), c.after);
  }
}
