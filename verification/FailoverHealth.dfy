/** What a failover turn leaves of a provider's back-off and of its count, from what the provider sent. */
module FailoverHealth {
  import opened Wrappers
  import opened Rpc
  import opened Chains
  import opened Providers
  import opened Traffic
  import opened Upstream
  import opened Failover
  import opened FailoverLaws

  /** The answer fits the request, and the first error in it that is neither about a missing method nor
      for the client says the provider is over its rate limit. */
  ghost predicate ConfessesRateLimit(h: ErrorHandler, req: BatchRequest, raw: Raw) {
    && Speaks(raw) && |raw.body.value.responses| == |req.requests|
    && exists n: nat :: FirstOther(h, raw.body.value.responses, n) && h(raw.body.value.responses[n]) == Unhealthy(true)
  }

  /** How long a throttled call keeps the provider away, in nanoseconds: its positive Retry-After in
      seconds, as far as it fits, half a minute without one. */
  function Patience(raw: Raw): int
    requires raw.Http?
  {
    if raw.retryAfter == None || raw.retryAfter.value <= 0 then 30_000_000_000
    else Duration(raw.retryAfter.value * 1_000_000_000)
  }

  /** When the call returns, and nothing else has happened since, it has set a back-off exactly if it
      came with status 429 or 402. */
  lemma CallBacksOffExactly(p: ProviderState, c: Contact)
    requires c.aside == []
    ensures Returned(p, c).rateLimitedUntil
      == if c.raw.Http? && c.raw.status in {402, 429} then Some(c.done + Patience(c.raw))
         else After(p, c.meanwhile).rateLimitedUntil
  {
  }

  /** The back-off after the turn: half a minute from its end if the answer confesses a rate limit; what a
      429 or 402 asks for, again, if the provider is still online when the call returns; and what the
      call and the traffic left otherwise. */
  lemma TurnBacksOffExactly(h: ErrorHandler, req: BatchRequest, p: ProviderState, c: Contact)
    requires Asked(p, req.requests, c)
    ensures Settled(h, req, p, c).rateLimitedUntil
      == if c.cancelled then Returned(p, c).rateLimitedUntil
         else if ConfessesRateLimit(h, req, c.raw) then Some(c.done + 30_000_000_000)
         else if c.raw.Http? && c.raw.status in {402, 429} && Returned(p, c).online then
           Some(c.done + if Patience(c.raw) > 0 then Patience(c.raw) else 30_000_000_000)
         else Returned(p, c).rateLimitedUntil
  {
    if Speaks(c.raw) {
      FirstStopDecides(h, c.raw.body.value.responses);
    }
  }

  /** Its count and the time of its last change: a fault takes an online provider out, and adds to the count
      of one that is out already if it lies in the answer; a failed call leaves that one alone. */
  lemma TurnCountsExactly(h: ErrorHandler, req: BatchRequest, p: ProviderState, c: Contact)
    requires Asked(p, req.requests, c)
    ensures var was, q := Returned(p, c), Settled(h, req, p, c);
      var blamed := !c.cancelled && AtFault(h, req, c.raw);
      && q.attempt == (if blamed && Speaks(c.raw) && !was.online then was.attempt + 1 else was.attempt)
      && q.lastStateChange
        == (if blamed && (was.online || (Speaks(c.raw) && was.lastStateChange == None)) then Some(c.done)
            else was.lastStateChange)
  {
    FaultyExactly(h, req, p, c);
  }

  /** Over the whole pass: without back-offs or recoveries after its turn, a provider that had one ends
      with the back-off the turn left. */
  lemma PassBacksOffExactly(h: ErrorHandler, req: BatchRequest, starts: seq<ProviderState>, contacts: seq<Contact>,
                            ends: seq<ProviderState>, end: Time, i: nat)
    requires i < |starts| == |contacts| == |ends| && Leaves(h, req, starts, contacts, ends, end)
    requires Fruitless(h, req, ViewsAt(starts, contacts), contacts, i)
    requires forall k :: 0 <= k < |contacts[i].after| ==>
      BackoffSetBy(contacts[i].after[k]).None? && !contacts[i].after[k].Recovery?
    ensures ends[i].rateLimitedUntil
      == Settled(h, req, After(starts[i], contacts[i].before), contacts[i]).rateLimitedUntil
  {
    var views := ViewsAt(starts, contacts);
    FruitlessIsUnfinished(h, req, views, contacts, i);
    assert i < Turns(Outcomes(h, req, views, contacts));
    BackoffIsLatest(Settled(h, req, views[i], contacts[i]), contacts[i].after, 0);
  }

  /** An Ethereum provider that answers eth_call with error -32005 at time 0 is left alone for half a
      minute, and is out. */
  lemma RateLimitedAnswerBacksOff(message: string)
    ensures var req := BatchRequest([Request(Number("1", Some(1)), "eth_call", "")], false);
      var r := Response("2.0", Number("1", Some(1)), None, "", None, Some(NewError(-32005, message)));
      var p := ProviderState(true, 0, None, None, map[]);
      var c := Contact([], 0, Http(200, None, Some(BatchResponse([r], false))), [], 0, false, [], []);
      var q := Settled(HandlerOf(Eth), req, p, c);
      !q.online && q.rateLimitedUntil == Some(30_000_000_000) && q.lastStateChange == Some(0) && q.attempt == 0
  {
    var h := HandlerOf(Eth);
    var req := BatchRequest([Request(Number("1", Some(1)), "eth_call", "")], false);
    var r := Response("2.0", Number("1", Some(1)), None, "", None, Some(NewError(-32005, message)));
    var p := ProviderState(true, 0, None, None, map[]);
    var c := Contact([], 0, Http(200, None, Some(BatchResponse([r], false))), [], 0, false, [], []);
    assert GetError(r) == (-32005, message);
    assert FirstOther(h, [r], 0) && h(r) == Unhealthy(true);
    TurnBacksOffExactly(h, req, p, c);
    TurnCountsExactly(h, req, p, c);
    BlameIsExact(h, req, p, c);
  }
}
