/** What requests, connections and health checks do to a provider over time. */
module Traffic {
  import opened Wrappers
  import opened Providers

  /** Everything that can happen to a provider, with its time. */
  datatype Event =
    | Fault(cause: Cause, at: Time)
    | Recovery(at: Time)
    | Throttle(header: Option<int>, at: Time)
    | Denial(name: string, at: Time)
    | Lookup(name: string, at: Time)

  function Apply(p: ProviderState, e: Event): ProviderState {
    match e
    case Fault(cause, at) => MarkedUnhealthy(p, cause, at)
    case Recovery(at) => MarkedHealthy(p, at)
    case Throttle(header, at) => TooManyRequests(p, header, at)
    case Denial(name, at) => WithFlag(p, name, at)
    case Lookup(name, at) => Probed(p, name, at)
  }

  /** The provider after all that, in order. */
  function After(p: ProviderState, events: seq<Event>): ProviderState {
    if events == [] then p else Apply(After(p, events[..|events| - 1]), events[|events| - 1])
  }

  lemma {:induction false} AfterMore(p: ProviderState, events: seq<Event>, more: seq<Event>)
    ensures After(p, events + more) == After(After(p, events), more)
  {
    if more == [] {
      assert events + more == events;
    } else {
      AfterMore(p, events, more[..|more| - 1]);
      assert (events + more)[..|events + more| - 1] == events + more[..|more| - 1];
    }
  }

  /** What an event makes of a flag: it stands for half an hour after the denial. */
  lemma StandingAfter(p: ProviderState, e: Event, name: string, now: Time)
    ensures Standing(Apply(p, e), name, now)
      == match e
         case Denial(denied, at) =>
           if name == denied != "" then if now - at <= 1_800_000_000_000 then Some(at) else None
           else Standing(p, name, now)
         case Lookup(asked, at) =>
           if name == asked && Standing(p, name, now).Some?
             && at - Standing(p, name, now).value > 1_800_000_000_000
           then None else Standing(p, name, now)
         case _ => Standing(p, name, now)
  {
  }

  /** What cannot be told apart cannot be told apart after the same events. */
  lemma {:induction false} UnchangedAfter(p: ProviderState, q: ProviderState, events: seq<Event>, now: Time)
    requires Unchanged(p, q, now)
    ensures Unchanged(After(p, events), After(q, events), now)
  {
    if events != [] {
      var before, e := events[..|events| - 1], events[|events| - 1];
      UnchangedAfter(p, q, before, now);
      var p1, q1 := After(p, before), After(q, before);
      SameFlagsExactly(p1, q1, now);
      forall name
        ensures Standing(Apply(p1, e), name, now) == Standing(Apply(q1, e), name, now)
      {
        StandingAfter(p1, e, name, now);
        StandingAfter(q1, e, name, now);
      }
      SameFlagsExactly(Apply(p1, e), Apply(q1, e), now);
    }
  }

  /** While nobody denies the method or looks it up, its flag just ages. */
  lemma {:induction false} FlagAges(p: ProviderState, events: seq<Event>, name: string, now: Time)
    requires forall i :: 0 <= i < |events| ==> events[i].Denial? || events[i].Lookup? ==> events[i].name != name
    ensures Flagged(After(p, events), name, now) == Flagged(p, name, now)
  {
    if events != [] {
      FlagAges(p, events[..|events| - 1], name, now);
      StandingAfter(After(p, events[..|events| - 1]), events[|events| - 1], name, now);
    }
  }

  /** A flag that does not stand does not come to stand unless somebody denies the method. */
  lemma {:induction false} NoDenialNoFlag(p: ProviderState, events: seq<Event>, name: string, now: Time)
    requires !Flagged(p, name, now)
    requires forall i :: 0 <= i < |events| && events[i].Denial? ==> events[i].name != name
    ensures !Flagged(After(p, events), name, now)
  {
    if events != [] {
      NoDenialNoFlag(p, events[..|events| - 1], name, now);
      StandingAfter(After(p, events[..|events| - 1]), events[|events| - 1], name, now);
    }
  }

  /** The back-off an event asks for: half a minute unless it says how long, a Retry-After in seconds. */
  function BackoffSetBy(e: Event): Option<Time> {
    match e
    case Fault(RateLimit(wait), at) => Some(at + if wait > 0 then wait else 30_000_000_000)
    case Throttle(Some(seconds), at) =>
      Some(at + if seconds > 0 then Duration(seconds * 1_000_000_000) else 30_000_000_000)
    case Throttle(None, at) => Some(at + 30_000_000_000)
    case _ => None
  }

  /** Event i brings an offline provider back. */
  predicate BringsBack(p: ProviderState, events: seq<Event>, i: nat) {
    i < |events| && events[i].Recovery? && !After(p, events[..i]).online
  }

  /** The back-off is that of the last event that asked for one, unless the provider has come back since;
      before any such event it is what it was. */
  lemma {:induction false} BackoffIsLatest(p: ProviderState, events: seq<Event>, n: nat)
    requires n <= |events|
    requires forall i :: n <= i < |events| ==> BackoffSetBy(events[i]).None? && !BringsBack(p, events, i)
    ensures n == 0 ==> After(p, events).rateLimitedUntil == p.rateLimitedUntil
    ensures n > 0 && BackoffSetBy(events[n - 1]).Some? ==>
      After(p, events).rateLimitedUntil == BackoffSetBy(events[n - 1])
    ensures n > 0 && BringsBack(p, events, n - 1) ==> After(p, events).rateLimitedUntil == None
  {
    if events != [] {
      var m, before := |events| - 1, events[..|events| - 1];
      if n <= m {
        forall i | n - 1 <= i < m && 0 <= i
          ensures BringsBack(p, before, i) <==> BringsBack(p, events, i)
        {
          assert before[..i] == events[..i];
        }
        assert !BringsBack(p, events, m);
        BackoffIsLatest(p, before, n);
      }
    }
  }

  method Happen(p: Provider, events: seq<Event>)
    modifies p
    ensures p.View() == After(old(p.View()), events)
  {
    var i := 0;
    while i < |events|
      invariant 0 <= i <= |events|
      invariant p.View() == After(old(p.View()), events[..i])
    {
      assert events[..i + 1][..i] == events[..i];
      match events[i] {
        case Fault(cause, at) => p.MarkUnhealthy(cause, at);
        case Recovery(at) => p.MarkHealthy(at);
        case Throttle(header, at) => var _ := p.HandleTooManyRequests(header, at);
        case Denial(name, at) => p.MarkMethodUnsupported(name, at);
        case Lookup(name, at) => var _ := p.SupportsMethod(name, at);
      }
      i := i + 1;
    }
    assert events[..i] == events;
  }

  // ------------------------------------------------------------ counting the faults

  /** The faults since the last recovery, since the beginning if there was none. */
  function FaultsSince(events: seq<Event>): nat {
    if events == [] then 0 else
      var before, last := FaultsSince(events[..|events| - 1]), events[|events| - 1];
      if last.Recovery? then 0 else if last.Fault? then before + 1 else before
  }

  predicate Recovered(events: seq<Event>) { exists i :: 0 <= i < |events| && events[i].Recovery? }

  /** Whatever happens, an online provider has a clean count; an offline one has counted every
      fault since it was last online, but not the one that took it offline. */
  lemma {:induction false} AttemptCountsFaults(p: ProviderState, events: seq<Event>)
    requires p.online ==> p.attempt == 0
    ensures var q, k := After(p, events), FaultsSince(events);
      if p.online || Recovered(events)
      then (q.online <==> k == 0) && q.attempt == (if k == 0 then 0 else k - 1)
      else !q.online && q.attempt == p.attempt + k
  {
    if events != [] {
      AttemptCountsFaults(p, events[..|events| - 1]);
      assert Recovered(events) <==> Recovered(events[..|events| - 1]) || events[|events| - 1].Recovery?;
    }
  }

  /** A provider is online exactly when no fault has come since it last recovered, and it was online or did. */
  lemma {:induction false} OnlineExactly(p: ProviderState, events: seq<Event>)
    ensures After(p, events).online <==> FaultsSince(events) == 0 && (p.online || Recovered(events))
  {
    if events != [] {
      OnlineExactly(p, events[..|events| - 1]);
      assert Recovered(events) <==> Recovered(events[..|events| - 1]) || events[|events| - 1].Recovery?;
    }
  }

  /** The provider starts offline, so online always means a clean count. */
  lemma {:induction false} OnlineMeansNoAttempts(p: ProviderState, events: seq<Event>)
    requires !p.online && p.attempt == 0
    ensures After(p, events).online ==> After(p, events).attempt == 0
    ensures After(p, events).online <==> Recovered(events) && FaultsSince(events) == 0
  {
    AttemptCountsFaults(p, events);
  }

  /** Event i takes the provider out or brings it back. */
  predicate Switches(p: ProviderState, events: seq<Event>, i: nat) {
    i < |events| && After(p, events[..i]).online != After(p, events[..i + 1]).online
  }

  function FirstFault(events: seq<Event>): (n: Option<nat>)
    ensures n.Some? ==> n.value < |events| && events[n.value].Fault?
    ensures forall i :: 0 <= i < (if n.Some? then n.value else |events|) ==> !events[i].Fault?
  {
    if events == [] then None else
      match FirstFault(events[..|events| - 1])
      case Some(i) => Some(i)
      case None => if events[|events| - 1].Fault? then Some(|events| - 1) else None
  }

  /** The last change is that of the last event that took the provider out or brought it back; before any it
      is what it was, and if there was none the first fault sets it. */
  lemma {:induction false} ChangeIsLatest(p: ProviderState, events: seq<Event>, n: nat)
    requires n <= |events| && forall i :: n <= i < |events| ==> !Switches(p, events, i)
    ensures n > 0 && Switches(p, events, n - 1) ==> After(p, events).lastStateChange == Some(events[n - 1].at)
    ensures n == 0 && p.lastStateChange.Some? ==> After(p, events).lastStateChange == p.lastStateChange
    ensures n == 0 && p.lastStateChange.None? ==>
      match FirstFault(events)
      case None => After(p, events).lastStateChange == None
      case Some(i) => After(p, events).lastStateChange == Some(events[i].at)
  {
    var m := |events| - 1;
    if n <= m {
      var before := events[..m];
      forall i | n - 1 <= i < m && 0 <= i
        ensures Switches(p, before, i) <==> Switches(p, events, i)
      {
        assert before[..i] == events[..i] && before[..i + 1] == events[..i + 1];
      }
      assert events[..m + 1] == events && !Switches(p, events, m);
      ChangeIsLatest(p, before, n);
    } else if n > 0 {
      assert events[..n] == events;
    }
  }
}
