/** The health-check worker: how often it looks, and what it makes of a provider over time. */
module Backoff {
  import opened Wrappers
  import opened Providers
  import opened Traffic

  // ----------------------------------------------------------------------- the worker

  function NextAttemptDelay(attempt: int): (delay: nat) {
    if attempt < 5 then 10 * SECOND
    else if attempt < 10 then 30 * SECOND
    else 60 * SECOND
  }

  /** A finished check: None when it passed. */
  function Verdict(failure: Option<Cause>, at: Time): Event {
    match failure
    case Some(cause) => Fault(cause, at)
    case None => Recovery(at)
  }

  /** Between is what other requests do to the provider after its count was read and before it is marked. */
  method RunOnce(p: Provider, failure: Option<Cause>, interval: nat, between: seq<Event>,
                 now: Time) returns (delay: nat)
    modifies p
    ensures p.View() == Apply(After(old(p.View()), between), Verdict(failure, now))
    ensures delay == if failure.Some? then NextAttemptDelay(old(p.View()).attempt) else interval
  {
    if failure.None? {
      Happen(p, between);
      p.MarkHealthy(now);
      return interval;
    }
    delay := NextAttemptDelay(p.attempt);
    Happen(p, between);
    p.MarkUnhealthy(failure.value, now);
  }

  /** What one cycle meets: traffic before the back-off is read, how long the worker oversleeps,
      traffic before the outcome is in, how long the check takes and what it finds, and traffic before
      the provider is marked. */
  datatype Cycle = Cycle(asleep: seq<Event>, late: nat, meanwhile: seq<Event>, took: nat, failure: Option<Cause>,
                         between: seq<Event>)

  /** What the worker did in one cycle. */
  datatype Checked = Checked(until: Option<Time>, start: Time, end: Time, delay: nat)

  /** Everything that happened to the provider in the first n cycles. */
  function History(cycles: seq<Cycle>, trace: seq<Checked>, n: nat): seq<Event>
    requires n <= |cycles| && n <= |trace|
    decreases n, 0
  {
    if n == 0 then [] else
      UntilOutcome(cycles, trace, n - 1) + cycles[n - 1].between + [Verdict(cycles[n - 1].failure, trace[n - 1].end)]
  }

  function UntilOutcome(cycles: seq<Cycle>, trace: seq<Checked>, n: nat): seq<Event>
    requires n < |cycles| && n <= |trace|
    decreases n, 1
  {
    History(cycles, trace, n) + cycles[n].asleep + cycles[n].meanwhile
  }

  /** A cycle went by the rules: it did not start before the back-off read at its top nor before
      its earliest time, and its delay is the one its outcome calls for. */
  predicate ByTheRules(was: ProviderState, interval: nat, earliest: Time, c: Cycle, t: Checked) {
    && t.until == After(was, c.asleep).rateLimitedUntil
    && (t.until.Some? ==> t.start >= t.until.value)
    && t.start >= earliest && t.end == t.start + c.took
    && t.delay == if c.failure.None? then interval
                  else NextAttemptDelay(After(After(was, c.asleep), c.meanwhile).attempt)
  }

  /** The provider once the worker has marked it. */
  function Outcome(p: ProviderState, c: Cycle, t: Checked): ProviderState {
    Apply(After(p, c.between), Verdict(c.failure, t.end))
  }

  function Earliest(clock: Time, trace: seq<Checked>, n: nat): Time
    requires n <= |trace|
  {
    if n == 0 then clock else trace[n - 1].end + trace[n - 1].delay
  }

  ghost predicate Obeyed(p: ProviderState, interval: nat, clock: Time, cycles: seq<Cycle>, trace: seq<Checked>, n: nat)
    requires n < |cycles| && n < |trace|
  {
    ByTheRules(After(p, History(cycles, trace, n)), interval, Earliest(clock, trace, n), cycles[n], trace[n])
  }

  ghost predicate Follows(p: ProviderState, interval: nat, clock: Time, cycles: seq<Cycle>, trace: seq<Checked>) {
    |trace| <= |cycles| && forall n :: 0 <= n < |trace| ==> Obeyed(p, interval, clock, cycles, trace, n)
  }

  /** The worker's loop, for as many cycles as are given. */
  method Worker(p: Provider, interval: nat, clock: Time, cycles: seq<Cycle>) returns (trace: seq<Checked>)
    modifies p
    ensures |trace| == |cycles| && Follows(old(p.View()), interval, clock, cycles, trace)
    ensures p.View() == After(old(p.View()), History(cycles, trace, |cycles|))
  {
    ghost var was := p.View();
    var now := clock;
    trace := [];
    for n := 0 to |cycles|
      invariant |trace| == n
      invariant Follows(was, interval, clock, cycles, trace)
      invariant now == Earliest(clock, trace, n)
      invariant p.View() == After(was, History(cycles, trace, n))
    {
      var c := cycles[n];
      var t := Cycled(p, interval, now, c);
      Extends(was, interval, clock, cycles, trace, t);
      now := t.end + t.delay;
      trace := trace + [t];
    }
  }

  method Cycled(p: Provider, interval: nat, clock: Time, c: Cycle) returns (t: Checked)
    modifies p
    ensures ByTheRules(old(p.View()), interval, clock, c, t)
    ensures p.View() == Outcome(After(After(old(p.View()), c.asleep), c.meanwhile), c, t)
  {
    Happen(p, c.asleep);
    var until := p.rateLimitedUntil;
    var start := clock + c.late;
    if until.Some? && start < until.value {
      start := until.value;
    }
    Happen(p, c.meanwhile);
    var end := start + c.took;
    var delay := RunOnce(p, c.failure, interval, c.between, end);
    t := Checked(until, start, end, delay);
  }

  lemma {:induction false} HistoryOfPrefix(cycles: seq<Cycle>, trace: seq<Checked>, t: Checked, n: nat)
    requires n <= |trace| && n <= |cycles|
    ensures History(cycles, trace + [t], n) == History(cycles, trace, n)
  {
    if n > 0 {
      HistoryOfPrefix(cycles, trace, t, n - 1);
    }
  }

  lemma Extends(p: ProviderState, interval: nat, clock: Time, cycles: seq<Cycle>, trace: seq<Checked>, t: Checked)
    requires Follows(p, interval, clock, cycles, trace) && |trace| < |cycles|
    requires var n := |trace|;
      ByTheRules(After(p, History(cycles, trace, n)), interval, Earliest(clock, trace, n), cycles[n], t)
    ensures Follows(p, interval, clock, cycles, trace + [t])
    ensures var n := |trace|;
      var c, was := cycles[n], After(p, History(cycles, trace, n));
      After(p, History(cycles, trace + [t], n + 1))
        == Outcome(After(After(was, c.asleep), c.meanwhile), c, t)
  {
    var n := |trace|;
    forall k | 0 <= k <= n
      ensures History(cycles, trace + [t], k) == History(cycles, trace, k)
    {
      HistoryOfPrefix(cycles, trace, t, k);
    }
    forall k | 0 <= k < n
      ensures Obeyed(p, interval, clock, cycles, trace + [t], k)
    {
      assert Obeyed(p, interval, clock, cycles, trace, k);
    }
    HistoryEnds(p, cycles, trace + [t], n);
  }

  lemma HistoryEnds(p: ProviderState, cycles: seq<Cycle>, trace: seq<Checked>, n: nat)
    requires n < |cycles| && n < |trace|
    ensures After(p, UntilOutcome(cycles, trace, n))
      == After(After(After(p, History(cycles, trace, n)), cycles[n].asleep), cycles[n].meanwhile)
    ensures After(p, History(cycles, trace, n + 1))
      == Outcome(After(p, UntilOutcome(cycles, trace, n)), cycles[n], trace[n])
  {
    var h, last := History(cycles, trace, n), [Verdict(cycles[n].failure, trace[n].end)];
    AfterMore(p, h, cycles[n].asleep);
    AfterMore(p, h + cycles[n].asleep, cycles[n].meanwhile);
    AfterMore(p, UntilOutcome(cycles, trace, n), cycles[n].between);
    AfterMore(p, UntilOutcome(cycles, trace, n) + cycles[n].between, last);
    assert last[..0] == [];
  }

  // -------------------------------------------------------------------- the schedule

  function TotalDelay(trace: seq<Checked>, n: nat): int
    requires n <= |trace|
  {
    if n == 0 then 0 else TotalDelay(trace, n - 1) + trace[n - 1].delay
  }

  function Min(a: int, b: int): int { if a < b then a else b }

  function Max(a: int, b: int): int { if a > b then a else b }

  /** k failures in a row: six quick ones, five slower, the rest once a minute. */
  function Schedule(k: nat): int {
    (10 * Min(k, 6) + 30 * Min(Max(k - 6, 0), 5) + 60 * Max(k - 11, 0)) * 1_000_000_000
  }

  predicate OnlyFails(c: Cycle) { c.asleep == [] && c.meanwhile == [] && c.between == [] && c.failure.Some? }

  /** The first k cycles all fail and nobody else touches the provider. */
  predicate OnlyFailures(cycles: seq<Cycle>, k: nat) {
    k <= |cycles| && forall i :: 0 <= i < k ==> OnlyFails(cycles[i])
  }

  lemma {:induction false} HistoryOfFailures(cycles: seq<Cycle>, trace: seq<Checked>, k: nat)
    requires OnlyFailures(cycles, k) && k <= |trace|
    ensures FaultsSince(History(cycles, trace, k)) == k
  {
    if k > 0 {
      HistoryOfFailures(cycles, trace, k - 1);
      var h := History(cycles, trace, k - 1);
      assert UntilOutcome(cycles, trace, k - 1) == h;
      assert UntilOutcome(cycles, trace, k - 1) + cycles[k - 1].between == h;
      assert (h + [Verdict(cycles[k - 1].failure, trace[k - 1].end)])[..|h|] == h;
    }
  }

  /** A provider that goes down and stays down is checked on the schedule. */
  lemma {:induction false} FailuresFollowSchedule(p: ProviderState, interval: nat, clock: Time, cycles: seq<Cycle>,
                                                  trace: seq<Checked>, k: nat)
    requires p.online && p.attempt == 0
    requires Follows(p, interval, clock, cycles, trace) && k <= |trace| && OnlyFailures(cycles, k)
    ensures TotalDelay(trace, k) == Schedule(k)
  {
    if k > 0 {
      FailuresFollowSchedule(p, interval, clock, cycles, trace, k - 1);
      HistoryOfFailures(cycles, trace, k - 1);
      var h := History(cycles, trace, k - 1);
      assert UntilOutcome(cycles, trace, k - 1) == h;
      AttemptCountsFaults(p, h);
      assert Obeyed(p, interval, clock, cycles, trace, k - 1);
    }
  }

  /** In any run a check starts no sooner than all the delays before it allow. */
  lemma {:induction false} ChecksAreSpaced(p: ProviderState, interval: nat, clock: Time, cycles: seq<Cycle>,
                                           trace: seq<Checked>, k: nat)
    requires Follows(p, interval, clock, cycles, trace) && k < |trace|
    ensures trace[k].start >= clock + TotalDelay(trace, k)
    ensures trace[k].until.Some? ==> trace[k].start >= trace[k].until.value
  {
    assert Obeyed(p, interval, clock, cycles, trace, k);
    if k > 0 {
      ChecksAreSpaced(p, interval, clock, cycles, trace, k - 1);
      assert Obeyed(p, interval, clock, cycles, trace, k - 1);
    }
  }

  /** The delay after any failed check, in any traffic, by the faults the provider has behind it. */
  lemma {:induction false} DelayByFaults(p: ProviderState, interval: nat, clock: Time, cycles: seq<Cycle>,
                                        trace: seq<Checked>, n: nat)
    requires !p.online && p.attempt == 0
    requires Follows(p, interval, clock, cycles, trace) && n < |trace| && cycles[n].failure.Some?
    ensures var h := UntilOutcome(cycles, trace, n);
      var counted := if Recovered(h) then Max(FaultsSince(h) - 1, 0) else FaultsSince(h);
      trace[n].delay == (if counted < 5 then 10 else if counted < 10 then 30 else 60) * 1_000_000_000
  {
    AttemptCountsFaults(p, UntilOutcome(cycles, trace, n));
    HistoryEnds(p, cycles, trace, n);
    assert Obeyed(p, interval, clock, cycles, trace, n);
  }
}
