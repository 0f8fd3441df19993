/** Any number of goroutines call Write, Close and destroy on one connection at once. */
module CloseProtocol {
  import opened Wrappers
  import opened Connections
  import opened Runs
  import opened Subsequences

  /** A caller: waiting to queue a message, at the top of Close, waiting to hand over the
      close message, about to cancel the context, or returned. */
  datatype Caller<T> = Writing(msg: T) | Beginning | Offering | Cancelling | Returned

  datatype State<T> = State(c: Conn<T>, callers: map<nat, Caller<T>>)

  function Initial<T>(): State<T> { State(Open(), map[]) }

  datatype Action<T> =
    | CallWrite(t: nat, msg: T)
    | CallClose(t: nat)
    | Destroy
    | Queue(t: nat)      // the message goes into the send queue
    | SeesDone(t: nat)   // a waiting caller takes the context's branch
    | Begin(t: nat)      // the closed flag is tested and set under the lock
    | Handover(t: nat)   // the write pump receives the close message
    | Cancel(t: nat)
    | Pump(w: WriterAction)

  predicate Enabled<T>(s: State<T>, a: Action<T>) {
    match a
    case CallWrite(t, _) => t !in s.callers
    case CallClose(t) => t !in s.callers
    case Destroy => true
    case Queue(t) => t in s.callers && s.callers[t].Writing? && HasRoom(s.c)
    case SeesDone(t) => t in s.callers && (s.callers[t].Writing? || s.callers[t].Offering?) && s.c.done
    case Begin(t) => t in s.callers && s.callers[t].Beginning?
    case Handover(t) => t in s.callers && s.callers[t].Offering? && s.c.w.Selecting?
    case Cancel(t) => t in s.callers && s.callers[t].Cancelling?
    case Pump(w) => WriterEnabled(s.c, w)
  }

  function Step<T>(s: State<T>, a: Action<T>): State<T> {
    if !Enabled(s, a) then s else
      match a
      case CallWrite(t, m) => s.(callers := s.callers[t := Writing(m)])
      case CallClose(t) => s.(callers := s.callers[t := Beginning])
      case Destroy => s.(c := s.c.(done := true))
      case Queue(t) => State(Push(s.c, s.callers[t].msg), s.callers[t := Returned])
      case SeesDone(t) => s.(callers := s.callers[t := if s.callers[t].Writing? then Returned else Cancelling])
      case Begin(t) =>
        if s.c.closed then s.(callers := s.callers[t := Returned])
        else State(s.c.(closed := true), s.callers[t := Offering])
      case Handover(t) => State(AcceptClose(s.c), s.callers[t := Cancelling])
      case Cancel(t) => State(s.c.(done := true), s.callers[t := Returned])
      case Pump(w) => s.(c := WriterStep(s.c, w))
  }

  function Run<T>(actions: seq<Action<T>>): State<T> {
    if actions == [] then Initial()
    else Step(Run(actions[..|actions| - 1]), actions[|actions| - 1])
  }

  predicate PastBegin<T>(k: Caller<T>) { k.Offering? || k.Cancelling? }

  ghost predicate Inv<T>(s: State<T>) {
    // one caller at most is past the flag, and only once the flag is set
    && (forall t, u :: t in s.callers && u in s.callers && PastBegin(s.callers[t]) && PastBegin(s.callers[u]) ==>
      t == u)
    && (forall t :: t in s.callers && PastBegin(s.callers[t]) ==> s.c.closed)
    // the flag is never left behind by a caller that did not cancel
    && (s.c.closed && !s.c.done ==> exists t :: t in s.callers && PastBegin(s.callers[t]))
    && (s.c.w.Exited? && !s.c.done ==> exists t :: t in s.callers && s.callers[t].Cancelling?)
    // a close frame ends the wire
    && (forall i :: 0 <= i < |s.c.wire| && s.c.wire[i].CloseFrame? ==> s.c.w.Exited? && i == |s.c.wire| - 1)
    && |s.c.send| <= QUEUE
    && FlushReady(s.c)
  }

  lemma PumpKeepsInv<T>(s: State<T>, w: WriterAction)
    requires Inv(s) && WriterEnabled(s.c, w)
    ensures Inv(Step(s, Pump(w)))
  {
    WriterKeepsFlushReady(s.c, w);
    if s.c.closed && !s.c.done {
      var t :| t in s.callers && PastBegin(s.callers[t]);
    }
  }

  /** Setting the flag: the caller that finds it unset is the only one past it. */
  lemma BeginKeepsInv<T>(s: State<T>, t: nat)
    requires Inv(s) && Enabled(s, Begin(t))
    ensures Inv(Step(s, Begin(t)))
  {
    var s' := Step(s, Begin(t));
    assert s'.c.closed && !s.c.closed ==> PastBegin(s'.callers[t]);
    if s.c.closed && !s.c.done {
      var u :| u in s.callers && PastBegin(s.callers[u]);
      assert u in s'.callers && PastBegin(s'.callers[u]);
    }
    if s.c.w.Exited? && !s.c.done {
      var u :| u in s.callers && s.callers[u].Cancelling?;
      assert u in s'.callers && s'.callers[u].Cancelling?;
    }
  }

  lemma StepKeepsInv<T>(s: State<T>, a: Action<T>)
    requires Inv(s)
    ensures Inv(Step(s, a))
  {
    if a.Pump? && Enabled(s, a) {
      PumpKeepsInv(s, a.w);
    } else if a.Begin? && Enabled(s, a) {
      BeginKeepsInv(s, a.t);
    } else if Enabled(s, a) {
      var s' := Step(s, a);
      if s.c.closed && !s.c.done {
        var t :| t in s.callers && PastBegin(s.callers[t]);
        assert !s'.c.done ==> t in s'.callers && PastBegin(s'.callers[t]);
      }
      if s.c.w.Exited? && !s.c.done {
        var t :| t in s.callers && s.callers[t].Cancelling?;
        assert !s'.c.done ==> t in s'.callers && s'.callers[t].Cancelling?;
      }
      match a {
        case Handover(t) => assert s'.callers[t].Cancelling?;
        case _ =>
      }
    }
  }

  lemma {:induction false} RunKeepsInv<T>(actions: seq<Action<T>>)
    ensures Inv(Run(actions))
  {
    if actions != [] {
      RunKeepsInv(actions[..|actions| - 1]);
      StepKeepsInv(Run(actions[..|actions| - 1]), actions[|actions| - 1]);
    }
  }

  /** However the callers interleave, the peer is sent at most one close frame, and nothing after it. */
  lemma {:induction false} OneCloseFrameAndLast<T>(actions: seq<Action<T>>, i: nat)
    requires i < |Run(actions).c.wire| && Run(actions).c.wire[i].CloseFrame?
    ensures i == |Run(actions).c.wire| - 1
    ensures Run(actions).c.w.Exited?
  {
    RunKeepsInv(actions);
  }

  /** Once the write pump has gone, the context is done or the one closer is about to end it. */
  lemma WriterGone<T>(actions: seq<Action<T>>)
    ensures var s := Run(actions);
      s.c.w.Exited? ==> s.c.done || exists t :: Enabled(s, Cancel(t)) && Step(s, Cancel(t)).c.done
  {
    RunKeepsInv(actions);
    var s := Run(actions);
    if s.c.w.Exited? && !s.c.done {
      var t :| t in s.callers && s.callers[t].Cancelling?;
      assert Enabled(s, Cancel(t)) && Step(s, Cancel(t)).c.done;
    }
  }

  /** The steps of the write pump that need nothing from outside, writes completing. */
  function PumpStep<T>(c: Conn<T>): WriterAction {
    match c.w
    case Selecting => if c.send != [] then Take else SeeDone
    case Holding(_, _) => Written
    case Flushing(_) => Next
    case Exited => SeeDone
  }

  /** Pump steps until the select that follows the current batch. */
  function Settle<T>(c: Conn<T>): seq<WriterAction>
    decreases if c.w.Flushing? then 2 * c.w.n + 1 else if c.w.Holding? then
                (if c.w.left.Some? then 2 * c.w.left.value + 2 else 2 * |c.send| + 2) else 0
  {
    if (c.w.Holding? || c.w.Flushing?) && WriterEnabled(c, PumpStep(c)) then
      [PumpStep(c)] + Settle(WriterStep(c, PumpStep(c)))
    else []
  }

  function Pumps<T>(s: State<T>, ws: seq<WriterAction>): State<T>
    decreases |ws|
  {
    if ws == [] then s else Pumps(Step(s, Pump(ws[0])), ws[1..])
  }

  lemma {:induction false} SettleSettles<T>(s: State<T>)
    requires FlushReady(s.c)
    ensures var s' := Pumps(s, Settle(s.c));
      && s'.callers == s.callers && s'.c.done == s.c.done
      && s'.c.w == (if s.c.w.Exited? then Exited else Selecting)
    decreases |Settle(s.c)|
  {
    if s.c.w.Holding? || s.c.w.Flushing? {
      var ws := Settle(s.c);
      assert ws[1..] == Settle(WriterStep(s.c, PumpStep(s.c)));
      SettleSettles(Step(s, Pump(ws[0])));
    }
  }

  /** How many queued messages the write pump has still committed itself to. */
  function Committed<T>(c: Conn<T>): nat {
    match c.w
    case Flushing(n) => n
    case Holding(_, Some(n)) => n
    case Holding(_, None) => |c.send|
    case _ => 0
  }

  /** What the peer will have been sent before the pump selects again. */
  function Underway<T>(c: Conn<T>): seq<T>
    requires Committed(c) <= |c.send|
  {
    DataOf(c.wire) + Held(c.w) + c.send[..Committed(c)]
  }

  lemma PumpKeepsUnderway<T>(c: Conn<T>)
    requires FlushReady(c) && (c.w.Holding? || c.w.Flushing?)
    ensures var c' := WriterStep(c, PumpStep(c));
      && FlushReady(c') && Underway(c') == Underway(c) && c'.send[Committed(c')..] == c.send[Committed(c)..]
  {
    var c' := WriterStep(c, PumpStep(c));
    if c.w.Holding? {
      DataOfAppend(c.wire, Data(c.w.msg));
    } else if c.w.n != 0 {
      assert [c.send[0]] + c'.send[..c.w.n - 1] == c.send[..c.w.n];
    }
  }

  /** Settling writes the message in hand and those committed to, in order, and leaves the rest. */
  lemma {:induction false} SettleWrites<T>(s: State<T>)
    requires FlushReady(s.c)
    ensures var c' := Pumps(s, Settle(s.c)).c;
      DataOf(c'.wire) == Underway(s.c) && c'.send == s.c.send[Committed(s.c)..]
    decreases |Settle(s.c)|
  {
    if s.c.w.Holding? || s.c.w.Flushing? {
      var ws := Settle(s.c);
      assert ws[1..] == Settle(WriterStep(s.c, PumpStep(s.c)));
      PumpKeepsUnderway(s.c);
      SettleWrites(Step(s, Pump(ws[0])));
    }
  }

  lemma TakeCommits<T>(c: Conn<T>)
    requires FlushReady(c) && c.w.Selecting? && c.send != []
    ensures var c' := WriterStep(c, Take);
      && c'.w.Holding? && Committed(c') == |c'.send| && FlushReady(c') && Underway(c') == DataOf(c.wire) + c.send
  {
    var c' := WriterStep(c, Take);
    assert c.send == [c.send[0]] + c'.send;
    assert c'.send[..|c'.send|] == c'.send;
  }

  /** A write pump that takes a message writes all that are queued, in order, before it selects again. */
  lemma TurnWritesAll<T>(c: Conn<T>, callers: map<nat, Caller<T>>)
    requires FlushReady(c) && c.w.Selecting? && c.send != []
    ensures var next := WriterStep(c, Take);
      var c' := Pumps(State(next, callers), Settle(next)).c;
      c'.w.Selecting? && c'.send == [] && DataOf(c'.wire) == DataOf(c.wire) + c.send
  {
    TakeCommits(c);
    SettleSettles(State(WriterStep(c, Take), callers));
    SettleWrites(State(WriterStep(c, Take), callers));
  }

  /** A caller that still has to wait. */
  predicate Waiting<T>(s: State<T>, t: nat) {
    t in s.callers && (s.callers[t].Writing? || s.callers[t].Offering?)
  }

  predicate CanMove<T>(s: State<T>, t: nat) {
    Enabled(s, Queue(t)) || Enabled(s, Handover(t)) || Enabled(s, SeesDone(t))
  }

  /** No Write or Close caller is ever stuck: after finitely many steps of the write pump on
      its own, and one of the closer, it can go on. */
  lemma NoCallerIsStuck<T>(actions: seq<Action<T>>, t: nat)
    requires Waiting(Run(actions), t)
    ensures var s := Run(actions);
      var s' := Pumps(s, Settle(s.c));
      || CanMove(s', t)
      || (s'.c.w.Selecting? && Enabled(s', Pump(Take)) && CanMove(Step(s', Pump(Take)), t))
      || exists u :: Enabled(s', Cancel(u)) && Enabled(Step(s', Cancel(u)), SeesDone(t))
  {
    RunKeepsInv(actions);
    var s := Run(actions);
    SettleSettles(s);
    PumpsKeepInv(s, Settle(s.c));
    SettledCallerGoesOn(Pumps(s, Settle(s.c)), t);
  }

  lemma SettledCallerGoesOn<T>(s': State<T>, t: nat)
    requires Inv(s') && Waiting(s', t) && (s'.c.w.Selecting? || s'.c.w.Exited?)
    ensures CanMove(s', t)
      || (s'.c.w.Selecting? && Enabled(s', Pump(Take)) && CanMove(Step(s', Pump(Take)), t))
      || exists u :: Enabled(s', Cancel(u)) && Enabled(Step(s', Cancel(u)), SeesDone(t))
  {
    if s'.c.w.Exited? && !s'.c.done {
      var u :| u in s'.callers && s'.callers[u].Cancelling?;
      assert Enabled(s', Cancel(u)) && Enabled(Step(s', Cancel(u)), SeesDone(t));
    } else if !s'.c.done && s'.callers[t].Writing? && !HasRoom(s'.c) {
      assert HasRoom(Step(s', Pump(Take)).c);
    }
  }

  lemma {:induction false} PumpsKeepInv<T>(s: State<T>, ws: seq<WriterAction>)
    requires Inv(s)
    ensures Inv(Pumps(s, ws))
    decreases |ws|
  {
    if ws != [] {
      StepKeepsInv(s, Pump(ws[0]));
      PumpsKeepInv(Step(s, Pump(ws[0])), ws[1..]);
    }
  }

  // -------------------------------------------------------- what each flag comes from

  /** What ends the context: destroy, a closer that is done, or a write or ping that fails. */
  predicate Ends<T>(s: State<T>, a: Action<T>) {
    Enabled(s, a) && (a.Destroy? || a.Cancel? || a == Pump(WriteFails) || a == Pump(PingFails))
  }

  predicate HandsOver<T>(s: State<T>, a: Action<T>) { Enabled(s, a) && a.Handover? }

  predicate ToldToClose<T>(s: State<T>) { true in CloseFrames(s.c.wire) }

  lemma RunFolds<T(!new)>()
    ensures Folds<State<T>, Action<T>>(Run, Step)
  {
    forall actions: seq<Action<T>>, a: Action<T>
      ensures Run(actions + [a]) == Step(Run(actions), a)
    {
      assert (actions + [a])[..|actions + [a]| - 1] == actions;
    }
  }

  lemma StepTells<T>(s: State<T>, a: Action<T>)
    ensures ToldToClose(Step(s, a)) <==> ToldToClose(s) || HandsOver(s, a)
  {
    if Enabled(s, a) {
      match a {
        case Pump(w) => WriterSendsNoCloseFrame(s.c, w);
        case Handover(_) => FramesMore(s.c.wire, CloseFrame);
        case _ =>
      }
    }
  }

  /** In every run the context has ended exactly when one of those steps ended it, and the peer was sent a
      close frame exactly when a closer handed one over. */
  lemma EndsExactly<T(!new)>(actions: seq<Action<T>>)
    ensures Run(actions).c.done <==> exists k: nat :: Took(Run, actions, k, Ends)
    ensures ToldToClose(Run(actions)) <==> exists k: nat :: Took(Run, actions, k, HandsOver)
  {
    RunFolds<T>();
    EndingSets<T>();
    TellingSets<T>();
    FlagExactly(Run, Step, actions, Ends, IsDone);
    FlagExactly(Run, Step, actions, HandsOver, ToldToClose);
  }

  predicate IsDone<T>(s: State<T>) { s.c.done }

  lemma EndingSets<T(!new)>()
    ensures Sets<State<T>, Action<T>>(Step, Ends, IsDone)
  {
    forall s: State<T>, a: Action<T>
      ensures Step(s, a).c.done <==> s.c.done || Ends(s, a)
    {
    }
  }

  lemma TellingSets<T(!new)>()
    ensures Sets<State<T>, Action<T>>(Step, HandsOver, ToldToClose)
  {
    forall s: State<T>, a: Action<T>
      ensures ToldToClose(Step(s, a)) <==> ToldToClose(s) || HandsOver(s, a)
    {
      StepTells(s, a);
    }
  }

  lemma StepKeepsGoodbye<T>(s: State<T>, a: Action<T>)
    requires SaysGoodbye(s.c)
    ensures SaysGoodbye(Step(s, a).c)
  {
    match a
    case Pump(w) => WriterKeepsGoodbye(s.c, w);
    case Handover(_) => AcceptCloseKeepsGoodbye(s.c);
    case _ =>
  }

  /** A write pump that is gone while the context lives has sent a close frame last. */
  lemma {:induction false} GoodbyeIsLast<T>(actions: seq<Action<T>>)
    ensures SaysGoodbye(Run(actions).c)
  {
    if actions != [] {
      GoodbyeIsLast(actions[..|actions| - 1]);
      StepKeepsGoodbye(Run(actions[..|actions| - 1]), actions[|actions| - 1]);
    }
  }

  // -------------------------------------------------------------- what callers achieve

  /** The messages that Write calls queued, in order. */
  function Queued<T>(actions: seq<Action<T>>): seq<T> {
    if actions == [] then [] else
      var s, a := Run(actions[..|actions| - 1]), actions[|actions| - 1];
      Queued(actions[..|actions| - 1]) + (if a.Queue? && Enabled(s, a) then [s.callers[a.t].msg] else [])
  }

  /** While the context lives, what is written, in hand and queued is what the Write calls queued, in
      order; afterwards an in-order part of it. */
  lemma {:induction false} WritesAreKept<T>(actions: seq<Action<T>>)
    ensures Subseq(Stream(Run(actions).c), Queued(actions))
    ensures !Run(actions).c.done ==> Stream(Run(actions).c) == Queued(actions)
  {
    if actions != [] {
      var before, a := actions[..|actions| - 1], actions[|actions| - 1];
      WritesAreKept(before);
      StepKeepsWrites(Run(before), a, Queued(before));
      assert Queued(before) + [] == Queued(before);
    }
  }

  lemma StepKeepsWrites<T>(s: State<T>, a: Action<T>, queued: seq<T>)
    requires Subseq(Stream(s.c), queued) && (!s.c.done ==> Stream(s.c) == queued)
    ensures var more := if a.Queue? && Enabled(s, a) then [s.callers[a.t].msg] else [];
      && Subseq(Stream(Step(s, a).c), queued + more)
      && (!Step(s, a).c.done ==> Stream(Step(s, a).c) == queued + more)
  {
    assert queued + [] == queued;
    if Enabled(s, a) {
      match a {
        case Queue(t) =>
          PushExtendsStream(s.c, s.callers[t].msg);
          SubseqReflexive([s.callers[t].msg]);
          SubseqConcat(Stream(s.c), queued, [s.callers[t].msg], [s.callers[t].msg]);
        case Handover(_) => AcceptCloseKeepsStream(s.c);
        case Pump(w) => PumpKeepsWrites(s.c, w, queued);
        case _ =>
      }
    }
  }

  lemma PumpKeepsWrites<T>(c: Conn<T>, w: WriterAction, queued: seq<T>)
    requires Subseq(Stream(c), queued) && (!c.done ==> Stream(c) == queued)
    ensures Subseq(Stream(WriterStep(c, w)), queued)
    ensures !WriterStep(c, w).done ==> Stream(WriterStep(c, w)) == queued
  {
    WriterKeepsStream(c, w);
    if w == WriteFails && WriterEnabled(c, w) {
      SubseqLose(DataOf(c.wire), c.w.msg, c.send);
      SubseqTransitive(Stream(WriterStep(c, w)), Stream(c), queued);
    }
  }

  /** The call of this caller, a Write or a Close, is the action at position k. */
  predicate Writes<T>(actions: seq<Action<T>>, t: nat, k: nat) {
    k < |actions| && actions[k].CallWrite? && actions[k].t == t
  }

  predicate Closes<T>(actions: seq<Action<T>>, t: nat, k: nat) {
    k < |actions| && actions[k].CallClose? && actions[k].t == t
  }

  /** A caller is inside exactly if it called; a Write call comes back only with its message queued or the
      context done, a Close call only when the connection is closed. */
  ghost predicate CallerFits<T>(actions: seq<Action<T>>, t: nat) {
    var s := Run(actions);
    if t !in s.callers then forall k: nat :: !Writes(actions, t, k) && !Closes(actions, t, k) else
      match s.callers[t]
      case Writing(m) => exists k: nat :: Writes(actions, t, k) && actions[k].msg == m
      case Returned =>
        || (s.c.closed && exists k: nat :: Closes(actions, t, k))
        || (exists k: nat :: Writes(actions, t, k) && (actions[k].msg in Queued(actions) || s.c.done))
      case Beginning => exists k: nat :: Closes(actions, t, k)
      case _ => s.c.closed && exists k: nat :: Closes(actions, t, k)
  }

  lemma {:induction false} CallsComeBackDone<T>(actions: seq<Action<T>>, t: nat)
    ensures CallerFits(actions, t)
  {
    if actions != [] {
      CallsComeBackDone(actions[..|actions| - 1], t);
      CallsMore(actions, t);
      if actions[|actions| - 1].Queue? {
        QueueComesBack(actions, t);
      } else {
        StepKeepsCaller(actions, t);
      }
    }
  }

  lemma CallsMore<T>(actions: seq<Action<T>>, t: nat)
    requires actions != []
    ensures var n, before := |actions| - 1, actions[..|actions| - 1];
      && (forall k: nat :: Closes(actions, t, k) <==> Closes(before, t, k) || (k == n && actions[n] == CallClose(t)))
      && (forall k: nat :: Writes(actions, t, k) <==>
            Writes(before, t, k) || (k == n && actions[n].CallWrite? && actions[n].t == t))
      && (forall k: nat :: k < n ==> actions[k] == before[k])
      && Queued(before) <= Queued(actions)
  {
  }

  lemma QueueComesBack<T>(actions: seq<Action<T>>, t: nat)
    requires actions != [] && actions[|actions| - 1].Queue? && CallerFits(actions[..|actions| - 1], t)
    ensures CallerFits(actions, t)
  {
    CallsMore(actions, t);
    var before, a := actions[..|actions| - 1], actions[|actions| - 1];
    if Enabled(Run(before), a) && a.t == t {
      var k: nat :| Writes(before, t, k) && before[k].msg == Run(before).callers[t].msg;
      assert Writes(actions, t, k) && actions[k].msg in Queued(actions);
    }
  }

  lemma StepKeepsCaller<T>(actions: seq<Action<T>>, t: nat)
    requires actions != [] && !actions[|actions| - 1].Queue? && CallerFits(actions[..|actions| - 1], t)
    ensures CallerFits(actions, t)
  {
    CallsMore(actions, t);
    var n, before, a := |actions| - 1, actions[..|actions| - 1], actions[|actions| - 1];
    StepOnCaller(Run(before), a, t);
    if a.CallWrite? && a.t == t { assert Writes(actions, t, n); }
    if a.CallClose? && a.t == t { assert Closes(actions, t, n); }
  }

  /** What a step other than queueing does to one caller. */
  lemma StepOnCaller<T>(s: State<T>, a: Action<T>, t: nat)
    requires !a.Queue?
    ensures var s' := Step(s, a);
      && (s.c.closed ==> s'.c.closed) && (s.c.done ==> s'.c.done) && (t in s.callers ==> t in s'.callers)
      && (t !in s.callers && t in s'.callers ==>
            || (a.CallWrite? && a.t == t && s'.callers[t] == Writing(a.msg))
            || (a == CallClose(t) && s'.callers[t].Beginning?))
      && (t !in s.callers && a.CallWrite? ==> a.t != t || t in s'.callers)
      && (t !in s.callers && a.CallClose? ==> a.t != t || t in s'.callers)
      && (t in s.callers && s'.callers[t] != s.callers[t] ==>
            || (s.callers[t].Writing? && s'.callers[t].Returned? && s'.c.done)
            || (!s.callers[t].Writing? && !s.callers[t].Returned?
                && (s'.callers[t].Returned? || s'.callers[t].Offering? || s'.callers[t].Cancelling?)
                && (s.callers[t].Beginning? ==> s'.c.closed)))
  {
  }
}
