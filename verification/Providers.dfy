/** A provider's health, back-off and capability flags. Times are nanoseconds. */
module Providers {
  import opened Wrappers

  type Time = int

  const SECOND: int := 1_000_000_000
  const DEFAULT_RATE_LIMIT_BACKOFF: int := 30 * SECOND
  const UNSUPPORTED_METHOD_TTL: int := 30 * 60 * SECOND

  /** None stands for the zero time. */
  datatype ProviderState = ProviderState(
    online: bool, attempt: int, rateLimitedUntil: Option<Time>, lastStateChange: Option<Time>,
    unsupported: map<string, Time>)

  /** Why a provider is taken out: a rate limit carries how long to stay away. */
  datatype Cause = RateLimit(retryAfter: int) | OtherFault

  function MarkedUnhealthy(p: ProviderState, cause: Cause, now: Time): ProviderState {
    var p1 := if cause.RateLimit?
              then p.(rateLimitedUntil :=
                        Some(now + if cause.retryAfter <= 0 then DEFAULT_RATE_LIMIT_BACKOFF else cause.retryAfter))
              else p;
    if !p.online then
      p1.(attempt := p.attempt + 1, lastStateChange := if p.lastStateChange.None? then Some(now) else p.lastStateChange)
    else p1.(online := false, lastStateChange := Some(now))
  }

  function MarkedHealthy(p: ProviderState, now: Time): ProviderState {
    if p.online then p
    else p.(online := true, lastStateChange := Some(now), attempt := 0, rateLimitedUntil := None)
  }

  function WithFlag(p: ProviderState, name: string, now: Time): ProviderState {
    if name == "" then p else p.(unsupported := p.unsupported[name := now])
  }

  predicate Flagged(p: ProviderState, name: string, now: Time) {
    name in p.unsupported && now - p.unsupported[name] <= UNSUPPORTED_METHOD_TTL
  }

  /** Looking a method up drops its flag if that has run out. */
  function Probed(p: ProviderState, name: string, now: Time): ProviderState {
    if name in p.unsupported && !Flagged(p, name, now) then p.(unsupported := p.unsupported - {name}) else p
  }

  /** Durations are 64-bit counts of nanoseconds, and products of them wrap around. */
  function Duration(ns: int): int { (ns + 0x8000_0000_0000_0000) % 0x1_0000_0000_0000_0000 - 0x8000_0000_0000_0000 }

  /** How long a 429 or 402 keeps the provider away: its positive Retry-After seconds, if it has any. */
  function RetryAfter(header: Option<int>): int {
    if header.Some? && header.value > 0 then Duration(header.value * SECOND) else DEFAULT_RATE_LIMIT_BACKOFF
  }

  /** A positive Retry-After is kept to exactly up to 9223372036 seconds, 292 years; after that it is whatever
      the wrapped product comes to. */
  lemma RetryAfterExactly(seconds: int)
    requires seconds > 0
    ensures RetryAfter(Some(seconds)) == seconds * 1_000_000_000 <==> seconds <= 9_223_372_036
    ensures (RetryAfter(Some(seconds)) - seconds * 1_000_000_000) % 0x1_0000_0000_0000_0000 == 0
    ensures -0x8000_0000_0000_0000 <= RetryAfter(Some(seconds)) < 0x8000_0000_0000_0000
    ensures RetryAfter(None) == RetryAfter(Some(0)) == RetryAfter(Some(-seconds)) == 30_000_000_000
  {
  }

  /** One second more and the provider is left alone until 292 years ago. */
  lemma LongestRetryAfterIsLost(p: ProviderState)
    ensures TooManyRequests(p, Some(9_223_372_037), 0).rateLimitedUntil == Some(-9_223_372_036_709_551_616)
  {
  }

  function TooManyRequests(p: ProviderState, header: Option<int>, now: Time): ProviderState {
    p.(rateLimitedUntil := Some(now + RetryAfter(header)))
  }

  class Provider {
    var online: bool
    var attempt: int
    var rateLimitedUntil: Option<Time>
    var lastStateChange: Option<Time>
    var unsupported: map<string, Time>

    function View(): ProviderState
      reads this
    {
      ProviderState(online, attempt, rateLimitedUntil, lastStateChange, unsupported)
    }

    method MarkUnhealthy(cause: Cause, now: Time)
      modifies this
      ensures View() == MarkedUnhealthy(old(View()), cause, now)
    {
      if cause.RateLimit? {
        var retryAfter := cause.retryAfter;
        if retryAfter <= 0 {
          retryAfter := DEFAULT_RATE_LIMIT_BACKOFF;
        }
        rateLimitedUntil := Some(now + retryAfter);
      }
      if !online {
        attempt := attempt + 1;
        if lastStateChange.None? {
          lastStateChange := Some(now);
        }
        return;
      }
      lastStateChange := Some(now);
      online := false;
    }

    method MarkHealthy(now: Time)
      modifies this
      ensures View() == MarkedHealthy(old(View()), now)
    {
      if online {
        return;
      }
      online := true;
      lastStateChange := Some(now);
      attempt := 0;
      rateLimitedUntil := None;
    }

    method MarkMethodUnsupported(name: string, now: Time)
      modifies this
      ensures View() == WithFlag(old(View()), name, now)
    {
      if name == "" {
        return;
      }
      unsupported := unsupported[name := now];
    }

    method SupportsMethod(name: string, now: Time) returns (ok: bool)
      modifies this
      ensures ok == !Flagged(old(View()), name, now)
      ensures View() == Probed(old(View()), name, now)
    {
      if name !in unsupported {
        return true;
      }
      if now - unsupported[name] > UNSUPPORTED_METHOD_TTL {
        unsupported := unsupported - {name};
        return true;
      }
      return false;
    }

    method HandleTooManyRequests(header: Option<int>, now: Time) returns (retryAfter: int)
      modifies this
      ensures View() == TooManyRequests(old(View()), header, now) && retryAfter == RetryAfter(header)
    {
      if header.Some? && header.value > 0 {
        retryAfter := Duration(header.value * SECOND);
      } else {
        retryAfter := DEFAULT_RATE_LIMIT_BACKOFF;
      }
      rateLimitedUntil := Some(now + retryAfter);
    }
  }

  // ------------------------------------------------- capability flags as time passes

  /** The two states are flagged for the same methods from now on. */
  ghost predicate SameFlagsFrom(p: ProviderState, q: ProviderState, now: Time) {
    forall name, t :: t >= now ==> (Flagged(q, name, t) <==> Flagged(p, name, t))
  }

  /** Everything but the flags is the same. */
  predicate SameHealth(p: ProviderState, q: ProviderState) {
    q.online == p.online && q.attempt == p.attempt && q.rateLimitedUntil == p.rateLimitedUntil
    && q.lastStateChange == p.lastStateChange
  }

  /** Nobody who looks from now on can tell the two apart. */
  ghost predicate Unchanged(was: ProviderState, p: ProviderState, now: Time) {
    SameHealth(was, p) && SameFlagsFrom(was, p, now)
  }

  /** When a standing flag was set. */
  function Standing(p: ProviderState, name: string, now: Time): Option<Time> {
    if Flagged(p, name, now) then Some(p.unsupported[name]) else None
  }

  /** Flags look the same from now on exactly when those standing now were set at the same times. */
  lemma SameFlagsExactly(p: ProviderState, q: ProviderState, now: Time)
    ensures SameFlagsFrom(p, q, now) <==> forall name :: Standing(p, name, now) == Standing(q, name, now)
  {
    if SameFlagsFrom(p, q, now) {
      forall name
        ensures Standing(p, name, now) == Standing(q, name, now)
      {
        assert Flagged(q, name, now) <==> Flagged(p, name, now);
        if Flagged(p, name, now) {
          var s, t := p.unsupported[name] + UNSUPPORTED_METHOD_TTL, q.unsupported[name] + UNSUPPORTED_METHOD_TTL;
          assert Flagged(q, name, s) <==> Flagged(p, name, s);
          assert Flagged(q, name, t) <==> Flagged(p, name, t);
        }
      }
    } else {
      var name, t :| t >= now && Flagged(q, name, t) != Flagged(p, name, t);
      assert Standing(p, name, now) != Standing(q, name, now);
    }
  }

  /** Dropping a flag that has run out makes no difference to anybody later. */
  lemma ProbingIsInvisible(p: ProviderState, name: string, now: Time)
    ensures SameFlagsFrom(p, Probed(p, name, now), now) && SameHealth(p, Probed(p, name, now))
  {
  }
}
