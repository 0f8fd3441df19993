/** Admission of method names as metric labels: a concurrent set and an atomic counter. */
module Labels {

  const MAX_METHOD_LABELS: nat := 1000
  const OTHER_METHOD: string := "other"

  /** Where a call of AdmitMethod is; it stops between any two atomic operations.
      Missed has not found its name, Granted has a reservation to use, Over has one to give
      back because the cap was passed, Duplicate because somebody else stored the name. */
  datatype Call = Entered(name: string) | Missed(name: string) | Granted(name: string) | Over | Duplicate | Returned

  datatype State = State(labels: set<string>, count: int, calls: map<nat, Call>)

  datatype Action = Begin(id: nat, name: string) | Advance(id: nat)

  function Initial(): State { State({}, 0, map[]) }

  function Step(s: State, a: Action): State {
    match a
    case Begin(id, name) => if id in s.calls then s else s.(calls := s.calls[id := Entered(name)])
    case Advance(id) =>
      if id !in s.calls then s else
        match s.calls[id]
        case Entered(name) =>
          s.(calls := s.calls[id := if name == "" || name in s.labels then Returned else Missed(name)])
        case Missed(name) =>
          s.(count := s.count + 1,
             calls := s.calls[id := if s.count + 1 > MAX_METHOD_LABELS then Over else Granted(name)])
        case Granted(name) =>
          s.(labels := s.labels + {name}, calls := s.calls[id := if name in s.labels then Duplicate else Returned])
        case Over => s.(count := s.count - 1, calls := s.calls[id := Returned])
        case Duplicate => s.(count := s.count - 1, calls := s.calls[id := Returned])
        case Returned => s
  }

  function Run(actions: seq<Action>): State {
    if actions == [] then Initial()
    else Step(Run(actions[..|actions| - 1]), actions[|actions| - 1])
  }

  /** Calls that hold a reservation for a label that is not stored yet. */
  function Reserved(s: State): set<nat> { set id | id in s.calls && s.calls[id].Granted? }

  /** Calls whose increment stands without a label of their own. */
  function Unsettled(s: State): set<nat> {
    set id | id in s.calls && (s.calls[id].Granted? || s.calls[id].Over? || s.calls[id].Duplicate?)
  }

  ghost predicate Inv(s: State) {
    && s.count == |s.labels| + |Unsettled(s)|
    && |s.labels| + |Reserved(s)| <= MAX_METHOD_LABELS
    && "" !in s.labels
    && (forall id :: id in s.calls && (s.calls[id].Missed? || s.calls[id].Granted?) ==> s.calls[id].name != "")
  }

  predicate Counted(c: Call) { c.Granted? || c.Over? || c.Duplicate? }

  function Switched(ids: set<nat>, id: nat, on: bool): set<nat> { if on then ids + {id} else ids - {id} }

  lemma SizeSwitched(ids: set<nat>, id: nat, on: bool)
    ensures |Switched(ids, id, on)| == |ids| + (if on then 1 else 0) - (if id in ids then 1 else 0)
  {
    if on && id in ids {
      assert ids + {id} == ids;
    } else if !on && id !in ids {
      assert ids - {id} == ids;
    }
  }

  lemma SetsAfter(s: State, id: nat, call: Call)
    requires id in s.calls
    ensures var s' := s.(calls := s.calls[id := call]);
      && |Reserved(s')| == |Reserved(s)| + (if call.Granted? then 1 else 0) - (if s.calls[id].Granted? then 1 else 0)
      && |Unsettled(s')| == |Unsettled(s)| + (if Counted(call) then 1 else 0) - (if Counted(s.calls[id]) then 1 else 0)
  {
    ReservedAfter(s, id, call);
    UnsettledAfter(s, id, call);
    SizeSwitched(Reserved(s), id, call.Granted?);
    SizeSwitched(Unsettled(s), id, Counted(call));
  }

  lemma ReservedAfter(s: State, id: nat, call: Call)
    requires id in s.calls
    ensures Reserved(s.(calls := s.calls[id := call])) == Switched(Reserved(s), id, call.Granted?)
    ensures id in Reserved(s) <==> s.calls[id].Granted?
  {
  }

  lemma UnsettledAfter(s: State, id: nat, call: Call)
    requires id in s.calls
    ensures Unsettled(s.(calls := s.calls[id := call])) == Switched(Unsettled(s), id, Counted(call))
    ensures id in Unsettled(s) <==> Counted(s.calls[id])
  {
  }

  lemma ReservedIsUnsettled(s: State)
    ensures |Reserved(s)| <= |Unsettled(s)|
  {
    assert Unsettled(s) == Reserved(s) + (Unsettled(s) - Reserved(s));
    assert Reserved(s) !! (Unsettled(s) - Reserved(s));
  }

  lemma BeginKeepsInv(s: State, id: nat, name: string)
    requires Inv(s)
    ensures Inv(Step(s, Begin(id, name)))
  {
    var s' := Step(s, Begin(id, name));
    assert Reserved(s') == Reserved(s) && Unsettled(s') == Unsettled(s);
  }

  lemma CountsAfter(s: State, id: nat)
    requires id in s.calls
    ensures var s' := Step(s, Advance(id));
      var was, call := s.calls[id], s'.calls[id];
      && |Reserved(s')| == |Reserved(s)| + (if call.Granted? then 1 else 0) - (if was.Granted? then 1 else 0)
      && |Unsettled(s')| == |Unsettled(s)| + (if Counted(call) then 1 else 0) - (if Counted(was) then 1 else 0)
  {
    var s' := Step(s, Advance(id));
    SetsAfter(s, id, s'.calls[id]);
    assert s'.calls == s.calls[id := s'.calls[id]];
    var t := s.(calls := s'.calls);
    assert Reserved(s') == Reserved(t) && Unsettled(s') == Unsettled(t);
  }

  lemma AdvanceKeepsInv(s: State, id: nat)
    requires Inv(s) && id in s.calls
    ensures Inv(Step(s, Advance(id)))
  {
    var s' := Step(s, Advance(id));
    ReservedIsUnsettled(s);
    CountsAfter(s, id);
    if s.calls[id].Granted? && s.calls[id].name in s.labels {
      assert s'.labels == s.labels;
    }
  }

  lemma StepKeepsInv(s: State, a: Action)
    requires Inv(s)
    ensures Inv(Step(s, a))
  {
    match a {
      case Begin(id, name) => BeginKeepsInv(s, id, name);
      case Advance(id) => if id in s.calls { AdvanceKeepsInv(s, id); }
    }
  }

  /** For any number of calls stopped anywhere: stored labels and granted reservations stay
      within the cap, and the counter is exactly the labels plus the unsettled increments. */
  lemma {:induction false} CapHolds(actions: seq<Action>)
    ensures var s := Run(actions);
      && Inv(s)
      && |s.labels| <= 1000
      && ((forall id :: id in s.calls ==> s.calls[id] == Returned) ==> s.count == |s.labels|)
  {
    if actions == [] {
      assert Unsettled(Initial()) == {} && Reserved(Initial()) == {};
    } else {
      CapHolds(actions[..|actions| - 1]);
      StepKeepsInv(Run(actions[..|actions| - 1]), actions[|actions| - 1]);
    }
    var s := Run(actions);
    if forall id :: id in s.calls ==> s.calls[id] == Returned {
      assert Unsettled(s) == {};
    }
  }

  /** A label is never withdrawn, and is always a name some call was given. */
  lemma {:induction false} LabelsOnlyGrow(before: seq<Action>, after: seq<Action>)
    ensures Run(before).labels <= Run(before + after).labels
    decreases |after|
  {
    if after == [] {
      assert before + after == before;
    } else {
      LabelsOnlyGrow(before, after[..|after| - 1]);
      assert (before + after)[..|before + after| - 1] == before + after[..|after| - 1];
    }
  }

  ghost predicate Asked(actions: seq<Action>, name: string) {
    exists i :: 0 <= i < |actions| && actions[i].Begin? && actions[i].name == name
  }

  lemma {:induction false} LabelsWereAsked(actions: seq<Action>, name: string)
    ensures name in Run(actions).labels ==> Asked(actions, name)
    ensures forall id :: Carries(Run(actions), id, name) ==> Asked(actions, name)
  {
    if actions != [] {
      var before, a := actions[..|actions| - 1], actions[|actions| - 1];
      LabelsWereAsked(before, name);
      assert a.Advance? && Carries(Run(before), a.id, name) ==> Asked(before, name);
      if Asked(before, name) {
        var i :| 0 <= i < |before| && before[i].Begin? && before[i].name == name;
        assert actions[i].Begin? && actions[i].name == name;
      }
      forall id | Carries(Run(actions), id, name)
        ensures Asked(actions, name)
      {
        if !Carries(Run(before), id, name) {
          assert a.Begin? && a.name == name && actions[|actions| - 1] == a;
        }
      }
    }
  }

  predicate Carries(s: State, id: nat, name: string) {
    id in s.calls && match s.calls[id]
      case Entered(n) => n == name
      case Missed(n) => n == name
      case Granted(n) => n == name
      case _ => false
  }

  /** A name is turned away only when labels and unsettled increments fill the cap, so on a
      quiet system only when a thousand labels are stored. */
  lemma TurnedAwayOnlyAtCap(actions: seq<Action>, id: nat)
    requires var s := Run(actions); id in s.calls && s.calls[id].Missed?
    ensures var s := Run(actions);
      Step(s, Advance(id)).calls[id] == Over <==> |s.labels| + |Unsettled(s)| >= 1000
  {
    CapHolds(actions);
  }

  // ------------------------------------------------------------ one call on its own

  /** What AdmitMethod does to the labels when nothing interferes. */
  function Admit(labels: set<string>, name: string): set<string> {
    if name == "" || |labels| >= MAX_METHOD_LABELS then labels else labels + {name}
  }

  function Solo(s: State, id: nat, name: string): State {
    Step(Step(Step(Step(Step(s, Begin(id, name)), Advance(id)), Advance(id)), Advance(id)), Advance(id))
  }

  lemma SoloAdmits(s: State, id: nat, name: string)
    requires s.count == |s.labels| && |s.labels| <= MAX_METHOD_LABELS && id !in s.calls
    ensures var s' := Solo(s, id, name);
      s'.labels == Admit(s.labels, name) && s'.count == |s'.labels| && s'.calls[id] == Returned
  {
    var s1 := Step(s, Begin(id, name));
    var s2 := Step(s1, Advance(id));
    if name != "" && name !in s.labels {
      assert s2.calls[id] == Missed(name);
      var s3 := Step(s2, Advance(id));
      if |s.labels| < MAX_METHOD_LABELS {
        assert s3.calls[id] == Granted(name);
      } else {
        assert s3.calls[id] == Over;
      }
    } else {
      assert s2.calls[id] == Returned;
      assert s.labels + {name} == s.labels || name == "";
    }
  }

  class MethodLabels {
    var labels: set<string>
    var count: int

    predicate Settled()
      reads this
    {
      count == |labels| && |labels| <= MAX_METHOD_LABELS && "" !in labels
    }

    constructor ()
      ensures Settled() && labels == {}
    {
      labels, count := {}, 0;
    }

    method AdmitMethod(name: string)
      requires Settled()
      modifies this
      ensures Settled()
      ensures labels == Admit(old(labels), name)
    {
      if name == "" {
        return;
      }
      if name in labels {
        assert labels + {name} == labels;
        return;
      }
      count := count + 1;
      if count > MAX_METHOD_LABELS {
        count := count - 1;
        return;
      }
      var loaded := name in labels;
      labels := labels + {name};
      count := if loaded then count - 1 else count;
    }

    method MethodLabel(name: string) returns (tag: string)
      ensures tag == "" <==> name == ""
      ensures name != "" && name in labels ==> tag == name
      ensures name != "" && name !in labels ==> tag == "other"
    {
      if name == "" {
        return "";
      }
      if name in labels {
        return name;
      }
      return OTHER_METHOD;
    }
  }
}
