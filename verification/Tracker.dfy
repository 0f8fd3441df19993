/** The shutdown tracker: a counter of open connections and two channels that are closed once. */
module Tracker {

  /** The tracker's fields. A closed channel is true; closing one twice panics. */
  datatype TrackerState = TrackerState(closing: bool, n: int, shutdown: bool, idle: bool, panicked: bool)

  function New(): TrackerState { TrackerState(false, 0, false, false, false) }

  function CloseIdle(t: TrackerState): TrackerState { t.(idle := true, panicked := t.panicked || t.idle) }

  function CloseShutdown(t: TrackerState): TrackerState { t.(shutdown := true, panicked := t.panicked || t.shutdown) }

  function Added(t: TrackerState): (TrackerState, bool) {
    if t.closing then (t, false) else (t.(n := t.n + 1), true)
  }

  function OneDone(t: TrackerState): TrackerState {
    var t1 := t.(n := t.n - 1);
    if t1.closing && t1.n == 0 then CloseIdle(t1) else t1
  }

  function AllClosing(t: TrackerState): TrackerState {
    if t.closing then t else
      var t1 := CloseShutdown(t.(closing := true));
      if t1.n == 0 then CloseIdle(t1) else t1
  }

  /** The object itself; each method body runs under its mutex. */
  class OpenConnections {
    var closing: bool
    var n: int
    var shutdown: bool
    var idle: bool
    var panicked: bool

    function View(): TrackerState
      reads this
    {
      TrackerState(closing, n, shutdown, idle, panicked)
    }

    constructor ()
      ensures View() == New()
    {
      closing, n, shutdown, idle, panicked := false, 0, false, false, false;
    }

    method Add() returns (ok: bool)
      modifies this
      ensures (View(), ok) == Added(old(View()))
    {
      if closing {
        return false;
      }
      n := n + 1;
      return true;
    }

    method Done()
      modifies this
      ensures View() == OneDone(old(View()))
    {
      n := n - 1;
      if closing && n == 0 {
        panicked := panicked || idle;
        idle := true;
      }
    }

    method CloseAll()
      modifies this
      ensures View() == AllClosing(old(View()))
    {
      if closing {
        return;
      }
      closing := true;
      panicked := panicked || shutdown;
      shutdown := true;
      if n == 0 {
        panicked := panicked || idle;
        idle := true;
      }
    }
  }

  // ------------------------------------------------------------------------- runs

  /** Connection handlers: each calls add once and, if it succeeded, done once when it returns. */
  datatype Handler = Refused | Open | Finished

  datatype State = State(t: TrackerState, handlers: map<nat, Handler>)

  datatype Action = Arrives(id: nat) | Returns(id: nat) | Shutdown

  function Initial(): State { State(New(), map[]) }

  function Step(s: State, a: Action): State {
    match a
    case Arrives(id) =>
      if id in s.handlers then s else
        var (t, ok) := Added(s.t);
        State(t, s.handlers[id := if ok then Open else Refused])
    case Returns(id) =>
      if id !in s.handlers || !s.handlers[id].Open? then s
      else State(OneDone(s.t), s.handlers[id := Finished])
    case Shutdown => s.(t := AllClosing(s.t))
  }

  function Run(actions: seq<Action>): State {
    if actions == [] then Initial()
    else Step(Run(actions[..|actions| - 1]), actions[|actions| - 1])
  }

  function OpenHandlers(s: State): set<nat> { set id | id in s.handlers && s.handlers[id].Open? }

  /** What can be read off the fields at any time. */
  predicate Sound(s: State) {
    && s.t.n == |OpenHandlers(s)|
    && s.t.shutdown == s.t.closing
    && s.t.idle == (s.t.closing && s.t.n == 0)
    && !s.t.panicked
  }

  lemma StepKeepsSound(s: State, a: Action)
    requires Sound(s)
    ensures Sound(Step(s, a))
  {
    var s' := Step(s, a);
    if a.Arrives? && a.id !in s.handlers {
      assert OpenHandlers(s') == if s'.handlers[a.id].Open? then OpenHandlers(s) + {a.id} else OpenHandlers(s);
    } else if a.Returns? && a.id in OpenHandlers(s) {
      assert OpenHandlers(s') == OpenHandlers(s) - {a.id};
    }
  }

  /** In every run idle is closed exactly when shutdown has begun and no connection is open,
      and neither channel is ever closed twice. */
  lemma {:induction false} IdleExactly(actions: seq<Action>)
    ensures Sound(Run(actions))
  {
    if actions != [] {
      IdleExactly(actions[..|actions| - 1]);
      StepKeepsSound(Run(actions[..|actions| - 1]), actions[|actions| - 1]);
    } else {
      assert OpenHandlers(Initial()) == {};
    }
  }

  /** Once waiting for idle can succeed no connection is open, and none ever opens again. */
  lemma {:induction false} IdleIsFinal(before: seq<Action>, after: seq<Action>)
    requires Run(before).t.idle
    ensures Run(before + after).t.idle && Run(before + after).t.closing
    ensures OpenHandlers(Run(before + after)) == {}
    decreases |after|
  {
    IdleExactly(before);
    if after == [] {
      assert before + after == before;
    } else {
      var all := before + after;
      assert all[..|all| - 1] == before + after[..|after| - 1];
      IdleIsFinal(before, after[..|after| - 1]);
      var s := Run(all[..|all| - 1]);
      var s' := Step(s, all[|all| - 1]);
      forall id | id in OpenHandlers(s')
        ensures id in OpenHandlers(s)
      {
      }
    }
  }

  /** And it does succeed: from any state after shutdown, the open handlers returning suffices. */
  lemma {:induction false} HandlersDrain(actions: seq<Action>) returns (more: seq<Action>)
    requires Run(actions).t.closing
    ensures Run(actions + more).t.idle
    ensures |more| == |OpenHandlers(Run(actions))| && forall i :: 0 <= i < |more| ==> more[i].Returns?
    decreases |OpenHandlers(Run(actions))|
  {
    IdleExactly(actions);
    var s := Run(actions);
    if OpenHandlers(s) == {} {
      more := [];
      assert actions + more == actions;
    } else {
      var id :| id in OpenHandlers(s);
      var next := actions + [Returns(id)];
      assert next[..|next| - 1] == actions;
      assert OpenHandlers(Run(next)) == OpenHandlers(s) - {id};
      var rest := HandlersDrain(next);
      more := [Returns(id)] + rest;
      assert actions + more == next + rest;
    }
  }

  /** The handler's arrival is at position k, and nothing of it before. */
  ghost predicate FirstArrives(actions: seq<Action>, id: nat, k: nat) {
    k < |actions| && actions[k] == Arrives(id) && Arrives(id) !in actions[..k]
  }

  /** In every run closing has begun exactly when shutdown was called; a handler was let in exactly if it
      arrived before that, and is open exactly until it returns. */
  lemma {:induction false} HandlersExactly(actions: seq<Action>, id: nat)
    ensures var s := Run(actions);
      && (s.t.closing <==> Shutdown in actions)
      && (id in s.handlers <==> Arrives(id) in actions)
      && (forall k: nat :: FirstArrives(actions, id, k) ==>
            && (s.handlers[id].Refused? <==> Shutdown in actions[..k])
            && (s.handlers[id].Open? <==> Shutdown !in actions[..k] && Returns(id) !in actions[k..]))
  {
    if actions != [] {
      var n, before, a := |actions| - 1, actions[..|actions| - 1], actions[|actions| - 1];
      HandlersExactly(before, id);
      assert actions == before + [a];
      OneStep(Run(before), a, id);
      forall k: nat | FirstArrives(actions, id, k)
        ensures var s := Run(actions);
          && (s.handlers[id].Refused? <==> Shutdown in actions[..k])
          && (s.handlers[id].Open? <==> Shutdown !in actions[..k] && Returns(id) !in actions[k..])
      {
        if k < n {
          assert actions[..k] == before[..k] && actions[k..] == before[k..] + [a];
          assert FirstArrives(before, id, k);
        } else {
          assert actions[..k] == before && actions[k..] == [a];
        }
      }
    }
  }

  lemma OneStep(s: State, a: Action, id: nat)
    ensures var s' := Step(s, a);
      && (s'.t.closing <==> s.t.closing || a == Shutdown)
      && (id in s'.handlers <==> id in s.handlers || a == Arrives(id))
      && (id in s.handlers ==>
            && (s'.handlers[id].Refused? <==> s.handlers[id].Refused?)
            && (s'.handlers[id].Open? <==> s.handlers[id].Open? && a != Returns(id)))
      && (id !in s.handlers && a == Arrives(id) ==> s'.handlers[id] == if s.t.closing then Refused else Open)
  {
  }
}
