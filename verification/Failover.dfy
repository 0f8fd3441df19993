/** The failover loop of the HTTP path: what each provider contributes, said without a loop. */
module Failover {
  import opened Wrappers
  import opened Rpc
  import opened Chains
  import opened Providers
  import opened Traffic
  import opened Upstream
  import opened ResponseMethods

  /** What happens at one provider: traffic before its turn comes, when that is, what the upstream
      call yields, traffic during the call, when the call is over, whether the client has gone by
      then, traffic before the outcome has its consequences, and traffic before the pass ends. */
  datatype Contact = Contact(
    before: seq<Event>, at: Time, raw: Raw, meanwhile: seq<Event>, done: Time, cancelled: bool,
    aside: seq<Event>, after: seq<Event>)

  datatype Outcome =
    | Offline                      // not asked
    | Incapable                    // not asked: flagged for a requested method
    | Abandoned                    // the client has gone
    | Served(res: BatchResponse)
    | Unsupported
    | TooLarge
    | TryElsewhere(res: BatchResponse)
    | Faulty

  datatype Result =
    | Answer(provider: nat, res: BatchResponse)
    | Cancelled
    | NoProviderForMethod(methods: seq<string>)
    | RequestTooLarge
    | NoProvidersAvailable

  predicate Capable(p: ProviderState, reqs: seq<Request>, now: Time) {
    forall i :: 0 <= i < |reqs| ==> !Flagged(p, reqs[i].methodName, now)
  }

  predicate Asked(p: ProviderState, reqs: seq<Request>, c: Contact) {
    p.online && Capable(p, reqs, c.at)
  }

  // ------------------------------------------------------------ reading a response

  predicate Stops(h: ErrorHandler, r: Rpc.Response) {
    IsError(r) && (h(r).TryNext? || h(r).Unhealthy?)
  }

  predicate SaysUnsupported(h: ErrorHandler, r: Rpc.Response) { IsError(r) && h(r).NotSupported? }

  /** Position of the first error that ends the scan, the number of responses if there is none. */
  function FirstStop(h: ErrorHandler, rs: seq<Rpc.Response>): (n: nat)
    ensures n <= |rs| && (n < |rs| ==> Stops(h, rs[n]))
    ensures forall i :: 0 <= i < n ==> !Stops(h, rs[i])
  {
    if rs == [] then 0
    else if Stops(h, rs[0]) then 0
    else 1 + FirstStop(h, rs[1..])
  }

  /** Some response before the end of the scan says its method is unsupported. */
  predicate UnsupportedSeen(h: ErrorHandler, rs: seq<Rpc.Response>) {
    exists i :: 0 <= i < FirstStop(h, rs) && SaysUnsupported(h, rs[i])
  }

  function Judged(h: ErrorHandler, req: BatchRequest, res: BatchResponse): Outcome {
    var rs, n := res.responses, FirstStop(h, res.responses);
    if |rs| != |req.requests| then Faulty
    else if n < |rs| then
      if h(rs[n]).TryNext? then TryElsewhere(res.(isBatch := req.isBatch)) else Faulty
    else if UnsupportedSeen(h, rs) then Unsupported
    else Served(res.(isBatch := req.isBatch))
  }

  function OutcomeOf(h: ErrorHandler, req: BatchRequest, p: ProviderState, c: Contact): Outcome {
    if !p.online then Offline
    else if !Capable(p, req.requests, c.at) then Incapable
    else if c.cancelled then Abandoned
    else match Classify(c.raw)
      case Failed(f) =>
        if f.NotImplemented? && |req.requests| == 1 then Unsupported
        else if f == StatusError(REQUEST_TOO_LARGE) then TooLarge
        else Faulty
      case Answered(res) => Judged(h, req, res)
  }

  /** The provider was passed over, or answered, with a method it does not support. */
  predicate SawUnsupported(h: ErrorHandler, req: BatchRequest, p: ProviderState, c: Contact) {
    match OutcomeOf(h, req, p, c)
    case Incapable => true
    case Unsupported => true
    case Offline => false
    case Abandoned => false
    case _ => match Classify(c.raw)
      case Failed(_) => false
      case Answered(res) => |res.responses| == |req.requests| && UnsupportedSeen(h, res.responses)
  }

  // ------------------------------------------------------ what it does to a provider

  /** The provider when the outcome of the call is about to have its consequences. */
  function Returned(p: ProviderState, c: Contact): ProviderState {
    After(AfterCall(After(p, c.meanwhile), c.raw, c.done), c.aside)
  }

  function CauseOf(f: Failure): Cause { if f.RateLimited? then RateLimit(f.retryAfter) else OtherFault }

  function CauseInBand(d: Disposition): Cause {
    if d.Unhealthy? && d.rateLimited then RateLimit(0) else OtherFault
  }

  /** The provider's health afterwards. A failed call only takes it offline if it still is
      online; a bad answer is counted even if somebody else was faster. */
  function Health(h: ErrorHandler, req: BatchRequest, p: ProviderState, c: Contact): ProviderState {
    if !Asked(p, req.requests, c) then p else
      var p1 := Returned(p, c);
      if !OutcomeOf(h, req, p, c).Faulty? then p1 else
        match Classify(c.raw)
        case Failed(f) => if p1.online then MarkedUnhealthy(p1, CauseOf(f), c.done) else p1
        case Answered(res) =>
          var rs := res.responses;
          if |rs| != |req.requests| then MarkedUnhealthy(p1, OtherFault, c.done)
          else MarkedUnhealthy(p1, CauseInBand(h(rs[FirstStop(h, rs)])), c.done)
  }

  /** The provider comes out of the pass flagged for this method. */
  ghost predicate Flags(h: ErrorHandler, req: BatchRequest, p: ProviderState, c: Contact, name: string) {
    && name != "" && Asked(p, req.requests, c) && !c.cancelled
    && match Classify(c.raw)
       case Failed(f) => f.NotImplemented? && |req.requests| == 1 && name == req.requests[0].methodName
       case Answered(res) =>
         && |res.responses| == |req.requests| > 0
         && exists i :: 0 <= i < FirstStop(h, res.responses) && SaysUnsupported(h, res.responses[i])
              && name == MethodFor(req.requests, ResKey(res.responses[i]), i)
  }

  /** Only requested names are ever flagged. */
  lemma FlagsAreRequested(h: ErrorHandler, req: BatchRequest, p: ProviderState, c: Contact, name: string)
    requires Flags(h, req, p, c, name)
    ensures exists i :: 0 <= i < |req.requests| && req.requests[i].methodName == name
  {
    if Classify(c.raw).Answered? {
      var rs := Classify(c.raw).res.responses;
      var i :| 0 <= i < FirstStop(h, rs) && SaysUnsupported(h, rs[i])
        && name == MethodFor(req.requests, ResKey(rs[i]), i);
      if ResKey(rs[i]) != "" && HasOnlyHolder(req.requests, ResKey(rs[i])) {
        var j: nat :| j < |req.requests| && OnlyHolder(req.requests, ResKey(rs[i]), j);
        assert req.requests[j].methodName == name;
      } else {
        assert req.requests[i].methodName == name;
      }
    } else {
      assert req.requests[0].methodName == name;
    }
  }

  /** What the provider's turn makes of it: p is its state when the turn comes. */
  ghost function Settled(h: ErrorHandler, req: BatchRequest, p: ProviderState, c: Contact): ProviderState {
    if !Asked(p, req.requests, c) then p else
      var flags := map name | name in Names(req.requests) && Flags(h, req, p, c, name) :: c.done;
      Health(h, req, p, c).(unsupported := Returned(p, c).unsupported + flags)
  }

  /** The turn flags the provider from the end of its call on; other flags are left to the traffic. */
  lemma SettledFlags(h: ErrorHandler, req: BatchRequest, p: ProviderState, c: Contact, name: string, t: Time)
    ensures SameHealth(Health(h, req, p, c), Settled(h, req, p, c))
    ensures Flagged(Settled(h, req, p, c), name, t)
      <==> if Flags(h, req, p, c, name) then t - c.done <= UNSUPPORTED_METHOD_TTL
           else Flagged(if Asked(p, req.requests, c) then Returned(p, c) else p, name, t)
  {
    if Flags(h, req, p, c, name) {
      FlagsAreRequested(h, req, p, c, name);
      var i :| 0 <= i < |req.requests| && req.requests[i].methodName == name;
      assert Names(req.requests)[i] == name;
    }
  }

  /** What is left of the provider when the pass ends. */
  ghost function Left(h: ErrorHandler, req: BatchRequest, p: ProviderState, c: Contact): ProviderState {
    After(Settled(h, req, p, c), c.after)
  }

  // ------------------------------------------------------------------ the decision

  predicate Final(o: Outcome) { o.Served? || o.Abandoned? }

  /** The first provider whose outcome ends the loop, the number of providers if none does. */
  function FirstFinal(outs: seq<Outcome>): (n: nat)
    ensures n <= |outs| && (n < |outs| ==> Final(outs[n]))
    ensures forall i :: 0 <= i < n ==> !Final(outs[i])
  {
    if outs == [] then 0
    else if Final(outs[0]) then 0
    else 1 + FirstFinal(outs[1..])
  }

  /** The providers asked, in the order in which they were. */
  function AskedBefore(outs: seq<Outcome>, n: nat): seq<nat>
    requires n <= |outs|
  {
    if n == 0 then []
    else AskedBefore(outs, n - 1) + (if outs[n - 1].Offline? || outs[n - 1].Incapable? then [] else [n - 1])
  }

  /** The last provider that sent the request elsewhere. */
  function LastElsewhere(outs: seq<Outcome>): (last: Option<nat>)
    ensures last.Some? ==> last.value < |outs| && outs[last.value].TryElsewhere?
    ensures last.Some? ==> forall i :: last.value < i < |outs| ==> !outs[i].TryElsewhere?
    ensures last.None? ==> forall i :: 0 <= i < |outs| ==> !outs[i].TryElsewhere?
  {
    if outs == [] then None
    else if outs[|outs| - 1].TryElsewhere? then Some(|outs| - 1)
    else LastElsewhere(outs[..|outs| - 1])
  }

  /** The distinct names in their first order of appearance, those not in the set left out. */
  function Distinct(names: seq<string>, wanted: set<string>): seq<string> {
    if names == [] then [] else
      var before, last := names[..|names| - 1], names[|names| - 1];
      Distinct(before, wanted) + (if last in wanted && last !in before then [last] else [])
  }

  lemma {:induction false} DistinctListsEachOnce(names: seq<string>, wanted: set<string>)
    ensures forall m :: m in Distinct(names, wanted) <==> m in names && m in wanted
    ensures forall i, j :: 0 <= i < j < |Distinct(names, wanted)| ==>
      Distinct(names, wanted)[i] != Distinct(names, wanted)[j]
  {
    if names != [] {
      DistinctListsEachOnce(names[..|names| - 1], wanted);
      assert names == names[..|names| - 1] + [names[|names| - 1]];
    }
  }

  /** The outcome of a pass: outs per provider, unsupported whether any of them raised a missing
      method, missing the requested methods no provider supports at the end. */
  function Decide(outs: seq<Outcome>, unsupported: bool, missing: seq<string>): Result {
    var n := FirstFinal(outs);
    if n < |outs| then if outs[n].Served? then Answer(n, outs[n].res) else Cancelled
    else if unsupported && missing != [] then NoProviderForMethod(missing)
    else if TooLarge in outs then RequestTooLarge
    else match LastElsewhere(outs)
      case Some(i) => Answer(i, outs[i].res)
      case None => NoProvidersAvailable
  }

  // ------------------------------------------------------------------ a whole pass

  ghost function Outcomes(h: ErrorHandler, req: BatchRequest, views: seq<ProviderState>,
                          contacts: seq<Contact>): seq<Outcome>
    requires |views| == |contacts|
  {
    seq(|views|, i requires 0 <= i < |views| => OutcomeOf(h, req, views[i], contacts[i]))
  }

  ghost predicate AnyUnsupported(h: ErrorHandler, req: BatchRequest, views: seq<ProviderState>, contacts: seq<Contact>)
    requires |views| == |contacts|
  {
    exists i :: 0 <= i < |views| && SawUnsupported(h, req, views[i], contacts[i])
  }

  /** The requested methods that no provider, online or not, supports when the pass ends. */
  ghost function MissingSet(h: ErrorHandler, req: BatchRequest, views: seq<ProviderState>, contacts: seq<Contact>,
                            end: Time): set<string>
    requires |views| == |contacts|
  {
    set m | m in Names(req.requests)
      && forall i :: 0 <= i < |views| ==> Flagged(Left(h, req, views[i], contacts[i]), m, end)
  }

  ghost function Missing(h: ErrorHandler, req: BatchRequest, views: seq<ProviderState>, contacts: seq<Contact>,
                         end: Time): seq<string>
    requires |views| == |contacts|
  {
    Distinct(Names(req.requests), MissingSet(h, req, views, contacts, end))
  }

  ghost function ResultOf(h: ErrorHandler, req: BatchRequest, views: seq<ProviderState>, contacts: seq<Contact>,
                          end: Time): Result
    requires |views| == |contacts|
  {
    Decide(Outcomes(h, req, views, contacts), AnyUnsupported(h, req, views, contacts),
           Missing(h, req, views, contacts, end))
  }

  /** The states in which the providers' turns find them. */
  ghost function ViewsAt(starts: seq<ProviderState>, contacts: seq<Contact>): (views: seq<ProviderState>)
    requires |starts| == |contacts|
    ensures |views| == |starts|
  {
    seq(|starts|, i requires 0 <= i < |starts| => After(starts[i], contacts[i].before))
  }

  /** How many providers have their turn. */
  ghost function Turns(outs: seq<Outcome>): (n: nat)
    ensures n <= |outs|
  {
    if FirstFinal(outs) < |outs| then FirstFinal(outs) + 1 else |outs|
  }

  /** The first n providers are left as described, the others untouched. */
  ghost predicate Ended(h: ErrorHandler, req: BatchRequest, starts: seq<ProviderState>, contacts: seq<Contact>,
                        ends: seq<ProviderState>, n: nat, end: Time)
    requires |starts| == |contacts| == |ends|
  {
    && (forall i :: 0 <= i < n && i < |ends| ==>
      Unchanged(Left(h, req, ViewsAt(starts, contacts)[i], contacts[i]), ends[i], end))
    && (forall i :: n <= i < |ends| ==> ends[i] == starts[i])
  }

  /** The providers' states when the pass ends: those that had their turn as it and the traffic left
      them, the others as they were. */
  ghost predicate Leaves(h: ErrorHandler, req: BatchRequest, starts: seq<ProviderState>, contacts: seq<Contact>,
                         ends: seq<ProviderState>, end: Time)
    requires |starts| == |contacts| == |ends|
  {
    Ended(h, req, starts, contacts, ends, Turns(Outcomes(h, req, ViewsAt(starts, contacts), contacts)), end)
  }
}
