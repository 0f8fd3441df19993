/** Health checks of one endpoint's providers, interleaved at every lock. */
module Healthcheck {
  import opened Wrappers
  import opened Chains
  import opened Endpoints
  import opened Runs

  datatype Phase = Idle | Identified | Level | Passed | Failed(why: Failure)

  /** One check: what its provider reports and how far it has come. */
  datatype Check = Check(chainId: string, height: Uint64, phase: Phase)

  datatype System = System(endpoint: EndpointState, tolerance: nat, checks: seq<Check>)

  /** Check number check takes its next step. Before anything else the provider may fail to answer. */
  datatype Action = Action(check: nat, fails: bool)

  function To(s: System, i: nat, phase: Phase): System
    requires i < |s.checks|
  {
    s.(checks := s.checks[i := s.checks[i].(phase := phase)])
  }

  function Step(s: System, a: Action): (t: System)
    ensures |t.checks| == |s.checks| && t.tolerance == s.tolerance
  {
    if a.check >= |s.checks| then s else
      var c := s.checks[a.check];
      match c.phase
      case Idle =>
        if a.fails then To(s, a.check, Failed(Upstream))
        else if Mismatch(s.endpoint, c.chainId) then To(s, a.check, Failed(ChainMismatch))
        else To(s, a.check, Identified).(endpoint := Claimed(s.endpoint, c.chainId))
      case Identified =>
        To(s, a.check, if TooFarBehind(c.height, s.tolerance, s.endpoint.tip) then Failed(Behind) else Level)
      case Level => To(s, a.check, Passed).(endpoint := Observed(s.endpoint, c.height))
      case _ => s
  }

  function Run(s: System, actions: seq<Action>): (t: System)
    ensures |t.checks| == |s.checks| && t.tolerance == s.tolerance
  {
    if actions == [] then s else Step(Run(s, actions[..|actions| - 1]), actions[|actions| - 1])
  }

  lemma RunOneMore(s: System, actions: seq<Action>, a: Action)
    ensures Run(s, actions + [a]) == Step(Run(s, actions), a)
  {
    assert (actions + [a])[..|actions + [a]| - 1] == actions;
  }

  lemma {:induction false} RunConcat(s: System, before: seq<Action>, after: seq<Action>)
    ensures Run(s, before + after) == Run(Run(s, before), after)
  {
    if after == [] {
      assert before + after == before;
    } else {
      RunConcat(s, before, after[..|after| - 1]);
      assert (before + after)[..|before + after| - 1] == before + after[..|after| - 1];
    }
  }

  /** Nothing has been checked yet; the chain id may come from the configuration. */
  predicate Init(s: System) {
    s.endpoint.tip == 0 && forall i :: 0 <= i < |s.checks| ==> s.checks[i].phase == Idle
  }

  // ------------------------------------------------------------------ a single check

  /** What a check does to the endpoint when nothing comes between its steps. */
  function Alone(e: EndpointState, tolerance: nat, chainId: string, height: Uint64, fails: bool)
    : (Option<Failure>, EndpointState)
  {
    if fails then (Some(Upstream), e)
    else if Mismatch(e, chainId) then (Some(ChainMismatch), e)
    else if TooFarBehind(height, tolerance, e.tip) then (Some(Behind), Claimed(e, chainId))
    else (None, Observed(Claimed(e, chainId), height))
  }

  method RunCheck(e: Endpoint, kind: Kind, configured: Option<int>, chainId: string, height: Uint64, fails: bool)
    returns (failure: Option<Failure>)
    requires configured.Some? ==> configured.value < TWO_63
    modifies e
    ensures (failure, e.View()) == Alone(old(e.View()), Tolerance(kind, configured), chainId, height, fails)
  {
    if fails {
      return Some(Upstream);
    }
    var same := e.SetChainID(chainId);
    if !same {
      return Some(ChainMismatch);
    }
    var tip := e.HighestBlock();
    if TooFarBehind(height, Tolerance(kind, configured), tip) {
      return Some(Behind);
    }
    e.ObserveBlock(height);
    return None;
  }

  /** Three steps in a row of one check are that check run alone. */
  lemma AloneIsThreeSteps(s: System, i: nat, fails: bool)
    requires i < |s.checks| && s.checks[i].phase == Idle
    ensures var a := Action(i, fails);
      var after := Run(s, [a, a, a]);
      && (Alone(s.endpoint, s.tolerance, s.checks[i].chainId, s.checks[i].height, fails)
          == (if after.checks[i].phase.Failed? then Some(after.checks[i].phase.why) else None, after.endpoint))
      && (after.checks[i].phase == Passed || after.checks[i].phase.Failed?)
  {
    Three(s, Action(i, fails));
  }

  lemma Three(s: System, a: Action)
    ensures Run(s, [a, a, a]) == Step(Step(Step(s, a), a), a)
  {
    assert [a] + [a] + [a] == [a, a, a];
    Two(s, a, a);
    RunOneMore(s, [a] + [a], a);
  }

  // ------------------------------------------------------------------- all interleavings

  predicate Accepted(c: Check) { c.phase.Identified? || c.phase.Level? || c.phase.Passed? || c.phase == Failed(Behind) }

  predicate CheckFits(s: System, c: Check) {
    && (Accepted(c) && c.chainId != "" ==> c.chainId == s.endpoint.chainId)
    && (c.phase.Passed? ==> c.height <= s.endpoint.tip)
    && (c.phase == Failed(Behind) && c.height + s.tolerance < TWO_64 ==>
          TooFarBehind(c.height, s.tolerance, s.endpoint.tip))
  }

  ghost predicate TipIsReached(s: System) {
    s.endpoint.tip == 0
    || exists i :: 0 <= i < |s.checks| && s.checks[i].phase.Passed? && s.checks[i].height == s.endpoint.tip
  }

  ghost predicate Inv(s: System) {
    TipIsReached(s) && forall i :: 0 <= i < |s.checks| ==> CheckFits(s, s.checks[i])
  }

  predicate Forward(e: EndpointState, f: EndpointState) {
    e.tip <= f.tip && (e.chainId != "" ==> f.chainId == e.chainId)
  }

  lemma FitsLater(s: System, t: System, c: Check)
    requires CheckFits(s, c) && Forward(s.endpoint, t.endpoint) && s.tolerance == t.tolerance
    ensures CheckFits(t, c)
  {
    if c.phase == Failed(Behind) && c.height + s.tolerance < TWO_64 {
      BehindStays(c.height, c.height, s.tolerance, s.endpoint.tip, t.endpoint.tip);
    }
  }

  lemma StepKeepsInv(s: System, a: Action)
    requires Inv(s)
    ensures Inv(Step(s, a)) && Forward(s.endpoint, Step(s, a).endpoint)
  {
    var t := Step(s, a);
    forall i | 0 <= i < |t.checks|
      ensures CheckFits(t, t.checks[i])
    {
      FitsLater(s, t, s.checks[i]);
    }
    if a.check < |s.checks| && s.checks[a.check].phase.Level? && s.checks[a.check].height > s.endpoint.tip {
      assert t.checks[a.check].phase.Passed?;
    } else if s.endpoint.tip != 0 {
      var i :| 0 <= i < |s.checks| && s.checks[i].phase.Passed? && s.checks[i].height == s.endpoint.tip;
      assert t.checks[i] == s.checks[i];
    }
  }

  lemma {:induction false} RunKeepsInv(s: System, actions: seq<Action>)
    requires Inv(s)
    ensures Inv(Run(s, actions)) && Forward(s.endpoint, Run(s, actions).endpoint)
    ensures forall i :: 0 <= i < |s.checks| ==>
      Run(s, actions).checks[i].height == s.checks[i].height && Run(s, actions).checks[i].chainId == s.checks[i].chainId
  {
    if actions != [] {
      RunKeepsInv(s, actions[..|actions| - 1]);
      StepKeepsInv(Run(s, actions[..|actions| - 1]), actions[|actions| - 1]);
    }
  }

  /** In every run the tip is the greatest height any passing check committed, and checks that
      passed under a chain id all named the same one, which is the endpoint's. */
  lemma PassingChecksAgree(s: System, actions: seq<Action>)
    requires Init(s)
    ensures var t := Run(s, actions);
      && (forall i :: 0 <= i < |t.checks| && t.checks[i].phase.Passed? ==>
            t.checks[i].height <= t.endpoint.tip && t.checks[i].chainId in {"", t.endpoint.chainId})
      && (t.endpoint.tip == 0
          || exists i :: 0 <= i < |t.checks| && t.checks[i].phase.Passed? && t.checks[i].height == t.endpoint.tip)
      && (forall i, j :: 0 <= i < |t.checks| && 0 <= j < |t.checks|
            && t.checks[i].phase.Passed? && t.checks[j].phase.Passed?
            && t.checks[i].chainId != "" && t.checks[j].chainId != ""
            ==> t.checks[i].chainId == t.checks[j].chainId)
  {
    RunKeepsInv(s, actions);
    var t := Run(s, actions);
    forall i | 0 <= i < |t.checks|
      ensures CheckFits(t, t.checks[i])
    {
    }
  }

  /** From any point of a run on, the chain id once known never changes and the tip never falls. */
  lemma EndpointOnlyMovesForward(s: System, before: seq<Action>, after: seq<Action>)
    requires Init(s)
    ensures Forward(Run(s, before).endpoint, Run(s, before + after).endpoint)
  {
    RunKeepsInv(s, before);
    RunKeepsInv(Run(s, before), after);
    RunConcat(s, before, after);
  }

  /** A failing check never raises the tip: only the last step of a passing one does. */
  lemma OnlyCommitsRaiseTip(s: System, a: Action)
    ensures Step(s, a).endpoint.tip != s.endpoint.tip ==>
      && a.check < |s.checks| && s.checks[a.check].phase.Level? && Step(s, a).checks[a.check].phase.Passed?
      && Step(s, a).endpoint.tip == s.checks[a.check].height > s.endpoint.tip
  {
  }

  // ------------------------------------------------------------------- staying behind

  /** The check has not got past the lag test and never will. */
  predicate Doomed(s: System, i: nat) {
    && i < |s.checks| && s.checks[i].height + s.tolerance < TWO_64
    && (s.checks[i].phase.Idle? || s.checks[i].phase.Identified? || s.checks[i].phase.Failed?)
    && TooFarBehind(s.checks[i].height, s.tolerance, s.endpoint.tip)
  }

  lemma DoomedNext(s: System, a: Action, i: nat)
    requires Inv(s) && Doomed(s, i)
    ensures Doomed(Step(s, a), i)
  {
    StepKeepsInv(s, a);
    BehindStays(s.checks[i].height, s.checks[i].height, s.tolerance, s.endpoint.tip, Step(s, a).endpoint.tip);
  }

  lemma {:induction false} DoomedStays(s: System, actions: seq<Action>, i: nat)
    requires Inv(s) && Doomed(s, i)
    ensures Doomed(Run(s, actions), i)
  {
    if actions != [] {
      DoomedStays(s, actions[..|actions| - 1], i);
      RunKeepsInv(s, actions[..|actions| - 1]);
      DoomedNext(Run(s, actions[..|actions| - 1]), actions[|actions| - 1], i);
    }
  }

  /** Once one check has been turned away as behind, no check that reports that height or less
      and has not yet been let through will ever pass. */
  lemma RejectedHeightStaysRejected(s: System, before: seq<Action>, after: seq<Action>, i: nat, j: nat)
    requires Init(s) && i < |s.checks| && j < |s.checks|
    requires s.checks[i].height + s.tolerance < TWO_64 && s.checks[j].height <= s.checks[i].height
    requires Run(s, before).checks[i].phase == Failed(Behind)
    requires !Run(s, before).checks[j].phase.Level? && !Run(s, before).checks[j].phase.Passed?
    ensures !Run(Run(s, before), after).checks[j].phase.Level? && !Run(Run(s, before), after).checks[j].phase.Passed?
  {
    RunKeepsInv(s, before);
    var m := Run(s, before);
    assert CheckFits(m, m.checks[i]);
    BehindStays(m.checks[i].height, m.checks[j].height, m.tolerance, m.endpoint.tip, m.endpoint.tip);
    DoomedStays(m, after, j);
  }

  // ---------------------------------------------------- what the locks do not rule out

  /** Check j has passed during these actions. */
  predicate PassedSince(s: System, actions: seq<Action>, j: nat) {
    j < |s.checks| && !s.checks[j].phase.Passed? && Run(s, actions).checks[j].phase.Passed?
  }

  /** The tip rises above a height exactly when a check that reports more passes. */
  lemma {:induction false} TipRisesByPassing(s: System, actions: seq<Action>, height: int)
    requires Inv(s) && s.endpoint.tip <= height
    ensures Run(s, actions).endpoint.tip > height
      <==> exists j: nat :: PassedSince(s, actions, j) && s.checks[j].height > height
  {
    RunKeepsInv(s, actions);
    var t := Run(s, actions);
    assert forall j :: 0 <= j < |s.checks| && s.checks[j].phase.Passed? ==> s.checks[j].height <= height;
    if t.endpoint.tip > height && t.endpoint.tip > 0 {
      var j: nat :| j < |t.checks| && t.checks[j].phase.Passed? && t.checks[j].height == t.endpoint.tip;
      assert PassedSince(s, actions, j);
    }
    if j: nat :| PassedSince(s, actions, j) && s.checks[j].height > height {
      assert CheckFits(t, t.checks[j]);
    }
  }

  lemma BehindByPassing(s: System, actions: seq<Action>, height: Uint64)
    requires Inv(s) && !TooFarBehind(height, s.tolerance, s.endpoint.tip)
    ensures TooFarBehind(height, s.tolerance, Run(s, actions).endpoint.tip)
      <==> exists j: nat :: PassedSince(s, actions, j) && TooFarBehind(height, s.tolerance, s.checks[j].height)
  {
    TipRisesByPassing(s, actions, (height + s.tolerance) % TWO_64);
  }

  /** A check that is let through at its read and waits to commit would be turned away by now exactly
      when a check that reports too much for it has passed since. */
  lemma LaggardExactly(s: System, before: seq<Action>, i: nat, between: seq<Action>)
    requires Init(s) && i < |s.checks|
    requires Run(s, before).checks[i].phase.Identified? && Step(Run(s, before), Action(i, false)).checks[i].phase.Level?
    ensures var read, h := Step(Run(s, before), Action(i, false)), s.checks[i].height;
      TooFarBehind(h, s.tolerance, Run(read, between).endpoint.tip) <==>
        exists j: nat :: PassedSince(read, between, j) && TooFarBehind(h, s.tolerance, read.checks[j].height)
  {
    RunKeepsInv(s, before);
    StepKeepsInv(Run(s, before), Action(i, false));
    BehindByPassing(Step(Run(s, before), Action(i, false)), between, s.checks[i].height);
  }

  /** And it does pass: nothing looks at the tip again before the commit. */
  lemma LevelPasses(s: System, i: nat, fails: bool)
    requires i < |s.checks| && s.checks[i].phase.Level?
    ensures Step(s, Action(i, fails)).checks[i].phase.Passed?
  {
  }

  const SLOW: Action := Action(0, false)
  const FAST: Action := Action(1, false)

  lemma Two(s: System, a: Action, b: Action)
    ensures Run(s, [a] + [b]) == Step(Step(s, a), b)
  {
    assert [] + [a] == [a];
    RunOneMore(s, [], a);
    RunOneMore(s, [a], b);
  }

  lemma ReadsAlone()
    ensures var s := System(EndpointState("1", 0), 50, [Check("1", 10, Idle), Check("1", 100, Idle)]);
      Run(s, [SLOW] + [SLOW]) == s.(checks := [Check("1", 10, Level), Check("1", 100, Idle)])
  {
    Two(System(EndpointState("1", 0), 50, [Check("1", 10, Idle), Check("1", 100, Idle)]), SLOW, SLOW);
  }

  lemma OtherPasses()
    ensures var s := System(EndpointState("1", 0), 50, [Check("1", 10, Level), Check("1", 100, Idle)]);
      Run(s, [FAST] + [FAST] + [FAST])
        == System(EndpointState("1", 100), 50, [Check("1", 10, Level), Check("1", 100, Passed)])
  {
    var s := System(EndpointState("1", 0), 50, [Check("1", 10, Level), Check("1", 100, Idle)]);
    Two(s, FAST, FAST);
    RunOneMore(s, [FAST] + [FAST], FAST);
  }

  /** A check compares against the tip as it was: it may pass behind a tip raised in between. */
  lemma StaleTipLetsLaggardPass()
    ensures var s := System(EndpointState("1", 0), 50, [Check("1", 10, Idle), Check("1", 100, Idle)]);
      var t := Run(s, ([SLOW] + [SLOW]) + ([FAST] + [FAST] + [FAST]) + [SLOW]);
      && Init(s) && t.checks[0].phase.Passed? && t.checks[1].phase.Passed?
      && TooFarBehind(t.checks[0].height, t.tolerance, t.checks[1].height)
  {
    var s := System(EndpointState("1", 0), 50, [Check("1", 10, Idle), Check("1", 100, Idle)]);
    ReadsAlone();
    OtherPasses();
    RunConcat(s, [SLOW] + [SLOW], [FAST] + [FAST] + [FAST]);
    RunOneMore(s, ([SLOW] + [SLOW]) + ([FAST] + [FAST] + [FAST]), SLOW);
  }

  // --------------------------------------------------------------- who names the chain

  /** The step at position k gives the endpoint its chain id, and check i takes it. */
  predicate NamesChain(s: System, actions: seq<Action>, i: nat, k: nat) {
    && i < |s.checks| && k < |actions| && actions[k] == Action(i, false)
    && Run(s, actions[..k]).checks[i].phase.Idle? && Run(s, actions[..k]).endpoint.chainId == ""
    && s.checks[i].chainId != ""
  }

  /** A step changes the chain id exactly when a check that reports one is identified by it first. */
  lemma NamingExactly(s: System, a: Action)
    ensures Step(s, a).endpoint.chainId != s.endpoint.chainId
      <==> && a.check < |s.checks| && s.checks[a.check].phase.Idle? && !a.fails
           && s.endpoint.chainId == "" && s.checks[a.check].chainId != ""
    ensures Step(s, a).endpoint.chainId != s.endpoint.chainId ==>
      Step(s, a).endpoint.chainId == s.checks[a.check].chainId
  {
  }

  /** The chain id of an endpoint without a configured one is known exactly when some check has named
      it, and then it is the one that check reports. */
  lemma {:induction false} ChainIsNamedExactly(s: System, actions: seq<Action>)
    requires Inv(s) && s.endpoint.chainId == ""
    ensures Run(s, actions).endpoint.chainId != "" <==> exists i: nat, k: nat :: NamesChain(s, actions, i, k)
    ensures forall i: nat, k: nat :: NamesChain(s, actions, i, k) ==>
      Run(s, actions).endpoint.chainId == s.checks[i].chainId
  {
    if actions != [] {
      var n, before := |actions| - 1, actions[..|actions| - 1];
      var m, a := Run(s, before), actions[n];
      ChainIsNamedExactly(s, before);
      RunKeepsInv(s, before);
      NamingExactly(m, a);
      forall i: nat, k: nat
        ensures NamesChain(s, actions, i, k)
          <==>
            NamesChain(s, before, i, k) || (k == n && a.check == i && Step(m, a).endpoint.chainId != m.endpoint.chainId)
      {
        assert k < n ==> actions[..k] == before[..k];
        assert k == n ==> actions[..k] == before;
      }
      if i: nat, k: nat :| NamesChain(s, before, i, k) {
        assert m.endpoint.chainId == s.checks[i].chainId;
        StepKeepsInv(m, a);
      } else if Step(m, a).endpoint.chainId != m.endpoint.chainId {
        assert NamesChain(s, actions, a.check, n);
      }
    }
  }

  /** The step at position k turns check i away as behind. */
  predicate TurnsAway(s: System, actions: seq<Action>, i: nat, k: nat) {
    && i < |s.checks| && k < |actions| && actions[k].check == i && Run(s, actions[..k]).checks[i].phase.Identified?
    && TooFarBehind(s.checks[i].height, s.tolerance, Run(s, actions[..k]).endpoint.tip)
  }

  lemma {:induction false} TurnedAwayExactly(s: System, actions: seq<Action>, i: nat)
    requires Init(s) && i < |s.checks|
    ensures Run(s, actions).checks[i].phase == Failed(Behind) <==> exists k: nat :: TurnsAway(s, actions, i, k)
  {
    if actions != [] {
      var n, before := |actions| - 1, actions[..|actions| - 1];
      TurnedAwayExactly(s, before, i);
      RunKeepsInv(s, before);
      OneStepTurnsAway(Run(s, before), actions[n], i);
      assert forall k: nat :: k < n ==> actions[..k] == before[..k];
      if k: nat :| TurnsAway(s, before, i, k) {
        assert TurnsAway(s, actions, i, k);
      }
      if k: nat :| TurnsAway(s, actions, i, k) {
        assert k < n ==> TurnsAway(s, before, i, k);
      }
      var now := Run(s, before).checks[i].phase == Failed(Behind);
      assert Run(s, actions).checks[i].phase == Failed(Behind) <==> now || TurnsAway(s, actions, i, n);
    }
  }

  lemma OneStepTurnsAway(s: System, a: Action, i: nat)
    requires i < |s.checks|
    ensures Step(s, a).checks[i].phase == Failed(Behind) <==>
      s.checks[i].phase == Failed(Behind) || (a.check == i && s.checks[i].phase.Identified?
        && TooFarBehind(s.checks[i].height, s.tolerance, s.endpoint.tip))
  {
  }

  lemma {:induction false} NeverIdleAgain(s: System, actions: seq<Action>, i: nat)
    requires i < |s.checks| && !s.checks[i].phase.Idle?
    ensures !Run(s, actions).checks[i].phase.Idle?
  {
    if actions != [] {
      NeverIdleAgain(s, actions[..|actions| - 1], i);
    }
  }

  lemma NamesBeforeReading(s: System, actions: seq<Action>, i: nat, k: nat, l: nat)
    requires NamesChain(s, actions, i, k) && TurnsAway(s, actions, i, l)
    ensures k < l
  {
    if l <= k {
      RunConcat(s, actions[..l], actions[l..k]);
      assert actions[..l] + actions[l..k] == actions[..k];
      NeverIdleAgain(Run(s, actions[..l]), actions[l..k], i);
      assert false;
    }
  }

  /** A check ends turned away as behind although it named the chain exactly when it is the first to
      report a chain id, on an endpoint that has none, and later reads a tip too far ahead of it. */
  lemma FailedNamerExactly(s: System, actions: seq<Action>, i: nat)
    requires Init(s) && s.endpoint.chainId == "" && i < |s.checks|
    ensures (Run(s, actions).checks[i].phase == Failed(Behind) && exists k: nat :: NamesChain(s, actions, i, k)) <==>
      exists k: nat, l: nat :: k < l && NamesChain(s, actions, i, k) && TurnsAway(s, actions, i, l)
    ensures (exists k: nat :: NamesChain(s, actions, i, k)) ==>
      forall j: nat :: j < |s.checks| && Accepted(Run(s, actions).checks[j]) && s.checks[j].chainId != ""
        ==> s.checks[j].chainId == s.checks[i].chainId
  {
    TurnedAwayExactly(s, actions, i);
    if k: nat, l: nat :| NamesChain(s, actions, i, k) && TurnsAway(s, actions, i, l) {
      NamesBeforeReading(s, actions, i, k, l);
    }
    ChainIsNamedExactly(s, actions);
    RunKeepsInv(s, actions);
    forall j: nat | j < |s.checks|
      ensures CheckFits(Run(s, actions), Run(s, actions).checks[j])
    {
    }
  }

  /** It happens: a check without a chain id raises the tip, the next one names the chain and is turned away. */
  lemma FailedCheckNamesChain()
    ensures var s := System(EndpointState("", 0), 10, [Check("", 100, Idle), Check("7", 0, Idle)]);
      var t := Run(s, ([SLOW] + [SLOW] + [SLOW]) + ([FAST] + [FAST]));
      Init(s) && t.checks[1].phase == Failed(Behind) && t.endpoint.chainId == "7"
  {
    var s := System(EndpointState("", 0), 10, [Check("", 100, Idle), Check("7", 0, Idle)]);
    Two(s, SLOW, SLOW);
    RunOneMore(s, [SLOW] + [SLOW], SLOW);
    var m := System(EndpointState("", 100), 10, [Check("", 100, Passed), Check("7", 0, Idle)]);
    assert Run(s, [SLOW] + [SLOW] + [SLOW]) == m;
    RunConcat(s, [SLOW] + [SLOW] + [SLOW], [FAST] + [FAST]);
    Two(m, FAST, FAST);
  }

  // ----------------------------------------------------------- how every check ends

  type Cause = (System, Action) -> bool

  function RunOf(s: System): seq<Action> -> System { actions => Run(s, actions) }

  /** The step is the first of check i, and its provider gives a report, or fails to. */
  predicate Reports(s: System, a: Action, i: nat) {
    i < |s.checks| && a == Action(i, false) && s.checks[i].phase.Idle?
  }

  predicate Silent(s: System, a: Action, i: nat) {
    i < |s.checks| && a == Action(i, true) && s.checks[i].phase.Idle?
  }

  /** The report names another chain than the endpoint has; no name is another name too. */
  function RefusedOf(i: nat): Cause {
    (s: System, a: Action) =>
      Reports(s, a, i) && s.endpoint.chainId != "" && s.checks[i].chainId != s.endpoint.chainId
  }

  function WelcomedOf(i: nat): Cause {
    (s: System, a: Action) =>
      Reports(s, a, i) && (s.endpoint.chainId == "" || s.checks[i].chainId == s.endpoint.chainId)
  }

  function SilentOf(i: nat): Cause { (s: System, a: Action) => Silent(s, a, i) }

  /** The step reads a tip that lets check i through. */
  function LetThroughOf(i: nat): Cause {
    (s: System, a: Action) => i < |s.checks| && a.check == i && s.checks[i].phase.Identified?
              && !TooFarBehind(s.checks[i].height, s.tolerance, s.endpoint.tip)
  }

  function CommitsOf(i: nat): Cause {
    (s: System, a: Action) => i < |s.checks| && a.check == i && s.checks[i].phase.Level?
  }

  lemma RunFolds(s: System)
    ensures Folds(RunOf(s), Step)
  {
    forall actions: seq<Action>, a: Action
      ensures Run(s, actions + [a]) == Step(Run(s, actions), a)
    {
      RunOneMore(s, actions, a);
    }
  }

  function InPhase(i: nat, phases: set<Phase>): System -> bool {
    (s: System) => i < |s.checks| && s.checks[i].phase in phases
  }

  const ACCEPTED: set<Phase> := {Identified, Level, Passed, Failed(Behind)}

  lemma RefusingSets(i: nat)
    ensures Sets(Step, RefusedOf(i), InPhase(i, {Failed(ChainMismatch)}))
  {
  }

  lemma SilenceSets(i: nat)
    ensures Sets(Step, SilentOf(i), InPhase(i, {Failed(Upstream)}))
  {
  }

  lemma WelcomingSets(i: nat)
    ensures Sets(Step, WelcomedOf(i), InPhase(i, ACCEPTED))
  {
  }

  lemma LettingThroughSets(i: nat)
    ensures Sets(Step, LetThroughOf(i), InPhase(i, {Level, Passed}))
  {
  }

  lemma CommittingSets(i: nat)
    ensures Sets(Step, CommitsOf(i), InPhase(i, {Passed}))
  {
  }

  /** In every run a check has failed for the chain exactly when it reported a name other than the
      endpoint's, the empty one included, to an endpoint that had one; it has failed upstream exactly
      when its provider gave no report; it is accepted exactly when it reported the endpoint's name or
      the endpoint had none yet; it is let through exactly by the tip it read; and it has passed exactly
      when it took its last step after that. */
  lemma ChecksEndExactly(s: System, actions: seq<Action>, i: nat)
    requires Init(s) && i < |s.checks|
    ensures var phase := Run(s, actions).checks[i].phase;
      && (phase == Failed(ChainMismatch) <==> exists k: nat :: Took(RunOf(s), actions, k, RefusedOf(i)))
      && (phase == Failed(Upstream) <==> exists k: nat :: Took(RunOf(s), actions, k, SilentOf(i)))
      && (phase in ACCEPTED <==> exists k: nat :: Took(RunOf(s), actions, k, WelcomedOf(i)))
      && (phase in {Level, Passed} <==> exists k: nat :: Took(RunOf(s), actions, k, LetThroughOf(i)))
      && (phase == Passed <==> exists k: nat :: Took(RunOf(s), actions, k, CommitsOf(i)))
  {
    RunFolds(s);
    RefusingSets(i);
    SilenceSets(i);
    WelcomingSets(i);
    LettingThroughSets(i);
    CommittingSets(i);
    FlagExactly(RunOf(s), Step, actions, RefusedOf(i), InPhase(i, {Failed(ChainMismatch)}));
    FlagExactly(RunOf(s), Step, actions, SilentOf(i), InPhase(i, {Failed(Upstream)}));
    FlagExactly(RunOf(s), Step, actions, WelcomedOf(i), InPhase(i, ACCEPTED));
    FlagExactly(RunOf(s), Step, actions, LetThroughOf(i), InPhase(i, {Level, Passed}));
    FlagExactly(RunOf(s), Step, actions, CommitsOf(i), InPhase(i, {Passed}));
  }

  /** Hence on an endpoint whose chain is configured every accepted check reported that very name. */
  lemma AcceptedNamesConfigured(s: System, actions: seq<Action>, i: nat)
    requires Init(s) && s.endpoint.chainId != "" && i < |s.checks| && Run(s, actions).checks[i].phase in ACCEPTED
    ensures s.checks[i].chainId == s.endpoint.chainId
  {
    ChecksEndExactly(s, actions, i);
    var k: nat :| Took(RunOf(s), actions, k, WelcomedOf(i));
    RunKeepsInv(s, actions[..k]);
  }

  /** By default an Ethereum or Solana node may be 50 blocks behind, a Tron node 10, a Bitcoin node none;
      a configured tolerance counts as it is, and a negative one as none. */
  lemma TolerancesAre(kind: Kind, tip: Uint64, lag: nat, configured: int)
    requires lag <= tip && tip + 50 < TWO_64 && configured < TWO_63 && tip + configured < TWO_64
    ensures TooFarBehind(tip - lag, Tolerance(kind, None), tip)
      <==> lag > (if kind == Tron then 10 else if kind == Btc then 0 else 50)
    ensures TooFarBehind(tip - lag, Tolerance(kind, Some(configured)), tip)
      <==> lag > (if configured < 0 then 0 else configured)
  {
  }
}
