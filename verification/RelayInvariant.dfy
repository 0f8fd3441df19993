/** The relay's invariant holds in every run. */
module RelayInvariant {
  import opened Wrappers
  import opened Rpc
  import opened Chains
  import opened Connections
  import opened Relay
  import opened RelayControl

  // ------------------------------------------------------------- queues and flushes

  lemma CpKeepsFlow(s: State, a: CpAction)
    requires Flow(s) && CpEnabled(s, a)
    ensures Flow(CpStep(s, a))
  {
  }

  lemma PpKeepsFlow(s: State, a: PpAction)
    requires Flow(s) && PpEnabled(s, a)
    ensures Flow(PpStep(s, a))
  {
    if a.PpReceives? {
      ReceivingKeepsFlow(s);
    } else if a.PpQueues? || a.PpGivesUp? {
      SendingKeepsFlow(s, a);
    }
  }

  lemma ReceivingKeepsFlow(s: State)
    requires Flow(s) && PpEnabled(s, PpReceives)
    ensures Flow(ReceiveFromProvider(s))
  {
    ReceivingFrame(s);
  }

  lemma SendingKeepsFlow(s: State, a: PpAction)
    requires Flow(s) && PpEnabled(s, a) && (a.PpQueues? || a.PpGivesUp?)
    ensures Flow(PpStep(s, a))
  {
  }

  lemma ClientWriterKeepsFlow(s: State, w: WriterAction)
    requires Flow(s)
    ensures Flow(s.(client := WriterStep(s.client, w)))
  {
    WriterKeepsFlushReady(s.client, w);
  }

  lemma ProviderWriterKeepsFlow(s: State, w: WriterAction)
    requires Flow(s)
    ensures Flow(s.(provider := WriterStep(s.provider, w)))
  {
    WriterKeepsFlushReady(s.provider, w);
  }

  lemma WritersKeepFlow(s: State, w: WriterAction)
    requires Flow(s)
    ensures Flow(Step(s, ClientWriter(w)))
    ensures Flow(Step(s, ProviderWriter(w)))
  {
    WriterActs(s, w);
    ClientWriterKeepsFlow(s, w);
    ProviderWriterKeepsFlow(s, w);
  }

  lemma CloseKeepsFlow(s: State, a: CloseAction)
    requires Flow(s) && CloseEnabled(s, a)
    ensures Flow(CloseStep(s, a))
  {
    CloseTouchesNoMessage(s, a);
    CloseKeepsWriters(s, a);
  }

  lemma CloseKeepsWriters(s: State, a: CloseAction)
    requires CloseEnabled(s, a)
    ensures var s' := CloseStep(s, a);
      && (s'.client.w == s.client.w || s'.client.w == Exited)
      && (s'.provider.w == s.provider.w || s'.provider.w == Exited)
  {
    WithClosingFrame(Effect(s, a), a.th, Progress(s, a));
  }

  lemma OutsideKeepsFlow(s: State, a: Action)
    requires Flow(s) && Enabled(s, a) && Outside(a)
    ensures Flow(Step(s, a))
  {
    match a
    case ClientWriter(w) => WritersKeepFlow(s, w);
    case ProviderWriter(w) => WritersKeepFlow(s, w);
    case _ => OutsideTouchesNoMessage(s, a);
  }

  lemma StepKeepsFlow(s: State, a: Action)
    requires Flow(s)
    ensures Flow(Step(s, a))
  {
    if Enabled(s, a) {
      match a
      case ByCp(c) => CpKeepsFlow(s, c);
      case ByPp(p) => PpKeepsFlow(s, p);
      case ByCloser(k) => CloseKeepsFlow(s, k);
      case _ => OutsideKeepsFlow(s, a);
    }
  }

  // ----------------------------------------------------------------- who has left

  lemma CpKeepsRoles(s: State, a: CpAction)
    requires Roles(s) && CpEnabled(s, a)
    ensures Roles(CpStep(s, a))
  {
  }

  lemma PpKeepsRoles(s: State, a: PpAction)
    requires Roles(s) && PpEnabled(s, a)
    ensures Roles(PpStep(s, a))
  {
  }

  lemma CloseKeepsRoles(s: State, a: CloseAction)
    requires Roles(s) && CloseEnabled(s, a)
    ensures Roles(CloseStep(s, a))
  {
    CloseTouchesNoMessage(s, a);
  }

  lemma OutsideKeepsRoles(s: State, a: Action)
    requires Roles(s) && Enabled(s, a) && Outside(a)
    ensures Roles(Step(s, a))
  {
    OutsideTouchesNoMessage(s, a);
    OutsideKeepsDone(s, a);
  }

  lemma StepKeepsRoles(s: State, a: Action)
    requires Roles(s)
    ensures Roles(Step(s, a))
  {
    if Enabled(s, a) {
      match a
      case ByCp(c) => CpKeepsRoles(s, c);
      case ByPp(p) => PpKeepsRoles(s, p);
      case ByCloser(k) => CloseKeepsRoles(s, k);
      case _ => OutsideKeepsRoles(s, a);
    }
  }

  // -------------------------------------------------------------- one closer a side

  /** Outside Close nobody's place in it changes, except that a call may be about to begin. */
  lemma LocksFrame(s: State, s': State)
    requires Locks(s)
    requires forall x :: Closed(s', x) == Closed(s, x) && (Done(s, x) ==> Done(s', x))
    requires forall x :: WriterGone(s', x) ==> WriterGone(s, x) || Done(s', x)
    requires forall th, x :: PastBegin(s', th, x) == PastBegin(s, th, x)
    requires forall th :: Calling(s', th, Cancel) == Calling(s, th, Cancel)
    ensures Locks(s')
  {
    forall x | WriterGone(s', x) && !Done(s', x)
      ensures exists th :: PastBegin(s', th, x) && Calling(s', th, Cancel)
    {
      var th :| PastBegin(s, th, x) && Calling(s, th, Cancel);
      assert PastBegin(s', th, x);
    }
    forall x | Closed(s', x) && !Done(s', x)
      ensures exists th :: PastBegin(s', th, x)
    {
      var th :| PastBegin(s, th, x);
      assert PastBegin(s', th, x);
    }
  }

  /** A pump that does not close, or begins to, changes nothing about closing. */
  lemma PumpKeepsLocks(s: State, s': State)
    requires Locks(s)
    requires s'.client == s.client.(send := s'.client.send) && s'.provider == s.provider.(send := s'.provider.send)
    requires s'.h == s.h && (s'.cp == s.cp || (!s.cp.CClose? && (s'.cp.CClose? ==> s'.cp.k.stage == Begin)))
    requires s'.pp == s.pp || (!s.pp.PClose? && (s'.pp.PClose? ==> s'.pp.k.stage == Begin))
    ensures Locks(s')
  {
    LocksFrame(s, s');
  }

  lemma CpKeepsLocks(s: State, a: CpAction)
    requires Locks(s) && CpEnabled(s, a)
    ensures Locks(CpStep(s, a))
  {
    CpFrame(s, a);
    PumpKeepsLocks(s, CpStep(s, a));
  }

  lemma PpKeepsLocks(s: State, a: PpAction)
    requires Locks(s) && PpEnabled(s, a)
    ensures Locks(PpStep(s, a))
  {
    PpFrame(s, a);
    PumpKeepsLocks(s, PpStep(s, a));
  }

  lemma ClientWriterKeepsLocks(s: State, w: WriterAction)
    requires Locks(s)
    ensures Locks(s.(client := WriterStep(s.client, w)))
  {
    LocksFrame(s, s.(client := WriterStep(s.client, w)));
  }

  lemma ProviderWriterKeepsLocks(s: State, w: WriterAction)
    requires Locks(s)
    ensures Locks(s.(provider := WriterStep(s.provider, w)))
  {
    LocksFrame(s, s.(provider := WriterStep(s.provider, w)));
  }

  lemma WritersKeepLocks(s: State, w: WriterAction)
    requires Locks(s)
    ensures Locks(Step(s, ClientWriter(w))) && Locks(Step(s, ProviderWriter(w)))
  {
    WriterActs(s, w);
    ClientWriterKeepsLocks(s, w);
    ProviderWriterKeepsLocks(s, w);
  }

  lemma ReadFailKeepsLocks(s: State, x: Side)
    requires Locks(s)
    ensures Locks(WithDone(s, x))
  {
    LocksFrame(s, WithDone(s, x));
  }

  /** The handler leaves its select to begin closing or to return; nothing else changes but frames. */
  lemma HandlerKeepsLocks(s: State, s': State)
    requires Locks(s) && s' == s.(q := s'.q, h := s'.h)
    requires s'.h == s.h || (s.h == HWait && (s'.h.HClose? ==> s'.h.k.stage == Begin))
    ensures Locks(s')
  {
    LocksFrame(s, s');
  }

  lemma OutsideKeepsLocks(s: State, a: Action)
    requires Locks(s) && Enabled(s, a) && Outside(a)
    ensures Locks(Step(s, a))
  {
    match a
    case ClientWriter(w) => WritersKeepLocks(s, w);
    case ProviderWriter(w) => WritersKeepLocks(s, w);
    case ReadFails(x) => ReadFailKeepsLocks(s, x);
    case _ => HandlerKeepsLocks(s, Step(s, a));
  }

  /** A step of one caller leaves the others where they were. */
  lemma OthersStay(s: State, a: CloseAction)
    requires CloseEnabled(s, a)
    ensures forall th :: th != a.th ==> ClosingOf(CloseStep(s, a), th) == ClosingOf(s, th)
    ensures ClosingOf(CloseStep(s, a), a.th)
         == if Progress(s, a).todo == [] then None else Some(Progress(s, a))
  {
  }

  lemma EffectOnSides(s: State, a: CloseAction)
    requires CloseEnabled(s, a)
    ensures var s', x := CloseStep(s, a), Target(s, a.th);
      forall y ::
        && Closed(s', y) == (Closed(s, y) || (a.CloseBegins? && y == x))
        && Done(s', y) == (Done(s, y) || (a.CloseCancels? && y == x))
        && WriterGone(s', y) == (WriterGone(s, y) || (a.CloseHandsOver? && y == x))
  {
    WithClosingFrame(Effect(s, a), a.th, Progress(s, a));
  }

  /** Who is past the flag: the caller that sets it, until it has cancelled. */
  lemma PastBeginAfter(s: State, a: CloseAction)
    requires CloseEnabled(s, a)
    ensures var s', x := CloseStep(s, a), Target(s, a.th);
      && (forall th, y :: PastBegin(s', th, y) <==>
            || (PastBegin(s, th, y) && !(a.CloseCancels? && th == a.th))
            || (a.CloseBegins? && !Closed(s, x) && th == a.th && y == x))
      && (a.CloseBegins? ==> !PastBegin(s, a.th, x)) && (!a.CloseBegins? ==> PastBegin(s, a.th, x))
  {
    OthersStay(s, a);
  }

  lemma CloseKeepsLocks(s: State, a: CloseAction)
    requires Locks(s) && CloseEnabled(s, a)
    ensures Locks(CloseStep(s, a))
  {
    var s', x := CloseStep(s, a), Target(s, a.th);
    OthersStay(s, a);
    EffectOnSides(s, a);
    PastBeginAfter(s, a);
    var enters := a.CloseBegins? && !Closed(s, x);
    forall y | Closed(s', y) && !Done(s', y)
      ensures exists th :: PastBegin(s', th, y)
    {
      if enters && y == x {
        assert PastBegin(s', a.th, x);
      } else {
        assert Closed(s, y) && !Done(s, y);
        var th :| PastBegin(s, th, y);
        assert PastBegin(s', th, y);
      }
    }
    forall y | WriterGone(s', y) && !Done(s', y)
      ensures exists th :: PastBegin(s', th, y) && Calling(s', th, Cancel)
    {
      if WriterGone(s, y) {
        var th :| PastBegin(s, th, y) && Calling(s, th, Cancel);
        assert PastBegin(s', th, y) && Calling(s', th, Cancel);
      } else {
        assert PastBegin(s', a.th, y) && Calling(s', a.th, Cancel);
      }
    }
  }

  lemma StepKeepsLocks(s: State, a: Action)
    requires Locks(s)
    ensures Locks(Step(s, a))
  {
    if Enabled(s, a) {
      match a
      case ByCp(c) => CpKeepsLocks(s, c);
      case ByPp(p) => PpKeepsLocks(s, p);
      case ByCloser(k) => CloseKeepsLocks(s, k);
      case _ => OutsideKeepsLocks(s, a);
    }
  }

  // ------------------------------------------- nobody leaves a connection behind

  lemma CoverFrame(s: State, s': State)
    requires Cover(s)
    requires s'.proxyDone || s'.h != HWait ==> s.proxyDone || s.h != HWait
    requires forall x :: (Done(s, x) ==> Done(s', x)) && (Closed(s, x) ==> Closed(s', x))
    requires forall th, x :: Listed(s, th, x) ==> Listed(s', th, x) || Done(s', x) || Closed(s', x)
    ensures Cover(s')
  {
    if s'.proxyDone || s'.h != HWait {
      forall x | x == ClientSide || x == ProviderSide
        ensures Covered(s', x)
      {
        if !Done(s, x) && !Closed(s, x) {
          var th :| Listed(s, th, x);
          assert Listed(s', th, x) || Done(s', x) || Closed(s', x);
        }
      }
    }
  }

  lemma CpKeepsCover(s: State, a: CpAction)
    requires Cover(s) && CpEnabled(s, a)
    ensures Cover(CpStep(s, a))
  {
    var s' := CpStep(s, a);
    if s'.cp.CClose? {
      assert Listed(s', ClientPumpThread, ClientSide) && Listed(s', ClientPumpThread, ProviderSide);
    } else {
      CoverFrame(s, s');
    }
  }

  lemma PpKeepsCover(s: State, a: PpAction)
    requires Cover(s) && PpEnabled(s, a)
    ensures Cover(PpStep(s, a))
  {
    var s' := PpStep(s, a);
    if s'.pp.PClose? {
      assert Listed(s', ProviderPumpThread, ClientSide) && Listed(s', ProviderPumpThread, ProviderSide);
    } else {
      CoverFrame(s, s');
    }
  }

  lemma OutsideKeepsCover(s: State, a: Action)
    requires Cover(s) && Enabled(s, a) && Outside(a)
    ensures Cover(Step(s, a))
  {
    var s' := Step(s, a);
    if s'.h.HClose? && s.h == HWait {
      assert Listed(s', HandlerThread, ClientSide) || Done(s', ClientSide);
      assert Listed(s', HandlerThread, ProviderSide) || Done(s', ProviderSide);
    } else {
      CoverFrame(s, s');
    }
  }

  lemma CloseKeepsCover(s: State, a: CloseAction)
    requires Cover(s) && Locks(s) && Roles(s) && CloseEnabled(s, a)
    ensures Cover(CloseStep(s, a))
  {
    var s' := CloseStep(s, a);
    OthersStay(s, a);
    CloseTouchesNoMessage(s, a);
    var x, todo := Target(s, a.th), ClosingOf(s, a.th).value.todo;
    if Progress(s, a).todo != todo {
      assert Closed(s', x) || Done(s', x);
      assert todo == [x] + Progress(s, a).todo;
    }
    CoverFrame(s, s');
  }

  lemma StepKeepsCover(s: State, a: Action)
    requires Cover(s) && Locks(s) && Roles(s)
    ensures Cover(Step(s, a))
  {
    if Enabled(s, a) {
      match a
      case ByCp(c) => CpKeepsCover(s, c);
      case ByPp(p) => PpKeepsCover(s, p);
      case ByCloser(k) => CloseKeepsCover(s, k);
      case _ => OutsideKeepsCover(s, a);
    }
  }

  lemma {:induction false} RunKeepsInv(judge: ErrorHandler, policy: Policy, actions: seq<Action>)
    ensures Inv(Run(judge, policy, actions))
  {
    if actions != [] {
      var s := Run(judge, policy, actions[..|actions| - 1]);
      var a := actions[|actions| - 1];
      RunKeepsInv(judge, policy, actions[..|actions| - 1]);
      StepKeepsFlow(s, a);
      StepKeepsRoles(s, a);
      StepKeepsLocks(s, a);
      StepKeepsCover(s, a);
    }
  }

  /** None of the three drain loops ever waits: whatever is interleaved, the count it works
      off is there. */
  lemma DrainLoopsNeverWait(judge: ErrorHandler, policy: Policy, actions: seq<Action>)
    ensures var s := Run(judge, policy, actions);
      && (s.cp.CFlush? ==> Enabled(s, ByCp(CpFlushes)))
      && (s.pp.PFlush? ==> Enabled(s, ByPp(PpFlushes)))
      && (s.client.w.Flushing? ==> Enabled(s, ClientWriter(Next)))
      && (s.provider.w.Flushing? ==> Enabled(s, ProviderWriter(Next)))
  {
    RunKeepsInv(judge, policy, actions);
  }
}
