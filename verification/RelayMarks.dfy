/** What a relay makes of the provider it is connected to: the methods it flags and whether it takes
    it out, beside whatever else happens to that provider. */
module RelayMarks {
  import opened Rpc
  import opened Chains
  import opened Providers
  import opened Traffic
  import opened Relay
  import opened RelayAttribution

  /** Response g says the method of request i is unsupported, and i is the last request it may answer. */
  ghost predicate Refuses(judge: ErrorHandler, h: seq<Exchange>, g: nat, i: nat) {
    && g < |h| && h[g].Got? && Unsupported(judge, h[g].res)
    && ResKey(h[g].res) != "" && OpenAt(h[..g], ResKey(h[g].res), i, g)
  }

  lemma {:induction false} LacksExactly(judge: ErrorHandler, h: seq<Exchange>, name: string)
    requires name != ""
    ensures Lacks(name) in Marks(judge, h) <==>
      exists g: nat, i: nat :: Refuses(judge, h, g, i) && h[i].methodName == name
  {
    if h != [] {
      var n, before := |h| - 1, h[..|h| - 1];
      LacksExactly(judge, before, name);
      RefusesEarlier(judge, h);
      RefusesLast(judge, h, name);
      assert Lacks(name) in Marks(judge, h)
        <==> Lacks(name) in Marks(judge, before) || Lacks(name) in MarkFor(judge, before, h[n]);
      if g: nat, i: nat :| Refuses(judge, h, g, i) && h[i].methodName == name {
        assert g < n ==> Refuses(judge, before, g, i) && before[i].methodName == name;
      }
      if Lacks(name) in Marks(judge, before) {
        var g: nat, i: nat :| Refuses(judge, before, g, i) && before[i].methodName == name;
        assert Refuses(judge, h, g, i) && h[i].methodName == name;
      }
    }
  }

  lemma RefusesLast(judge: ErrorHandler, h: seq<Exchange>, name: string)
    requires name != "" && h != []
    ensures var n := |h| - 1;
      Lacks(name) in MarkFor(judge, h[..n], h[n]) <==>
        exists i: nat :: Refuses(judge, h, n, i) && h[i].methodName == name
  {
    var n := |h| - 1;
    LatestNames(h[..n], KeyIn(h[n]), name);
    if h[n].Got? && Unsupported(judge, h[n].res) {
      if i: nat :| OpenAt(h[..n], KeyIn(h[n]), i, n) && h[..n][i].methodName == name {
        assert KeyIn(h[n]) != "" ==> Refuses(judge, h, n, i);
      }
    }
  }

  lemma RefusesEarlier(judge: ErrorHandler, h: seq<Exchange>)
    requires h != []
    ensures forall g: nat, i: nat :: g < |h| - 1 ==> (Refuses(judge, h, g, i) <==> Refuses(judge, h[..|h| - 1], g, i))
  {
    forall g: nat, i: nat | g < |h| - 1
      ensures Refuses(judge, h, g, i) <==> Refuses(judge, h[..|h| - 1], g, i)
    {
      assert h[..g] == h[..|h| - 1][..g];
    }
  }

  lemma LatestNames(h: seq<Exchange>, k: string, name: string)
    requires name != ""
    ensures Latest(h, k) == name <==> k != "" && exists i: nat :: OpenAt(h, k, i, |h|) && h[i].methodName == name
  {
    if k != "" {
      if i: nat :| OpenAt(h, k, i, |h|) {
        LatestIsOpen(h, k, i);
        assert forall j: nat :: OpenAt(h, k, j, |h|) ==> j == i;
      } else {
        NothingOpen(h, k);
      }
    }
  }

  lemma {:induction false} LostExactly(judge: ErrorHandler, h: seq<Exchange>)
    ensures (exists m :: m in Marks(judge, h) && m.Lost?)
      <==> exists g: nat :: g < |h| && h[g].Got? && Fatal(judge, h[g].res)
  {
    if h != [] {
      var n, before := |h| - 1, h[..|h| - 1];
      LostExactly(judge, before);
      if g: nat :| g < |h| && h[g].Got? && Fatal(judge, h[g].res) {
        assert g < n ==> before[g] == h[g];
        assert g == n ==> MarkFor(judge, before, h[n]) == [Lost(judge(h[n].res).rateLimited)];
        if g == n {
          assert Lost(judge(h[n].res).rateLimited) in Marks(judge, h);
        }
      }
      if exists m :: m in Marks(judge, before) && m.Lost? {
        var m :| m in Marks(judge, before) && m.Lost?;
        assert m in Marks(judge, h);
      }
    }
  }

  /** A call on the provider as it happens to it. */
  function AsEvent(m: Mark, at: Time): Event {
    match m
    case Lacks(name) => Denial(name, at)
    case Lost(rateLimited) => Fault(if rateLimited then RateLimit(0) else OtherFault, at)
  }

  /** What happens to a provider that others use as well: the relay's next call on it, or something else. */
  datatype Happening = Own(at: Time) | Other(e: Event)

  function OwnCount(hs: seq<Happening>): nat {
    if hs == [] then 0 else OwnCount(hs[..|hs| - 1]) + (if hs[|hs| - 1].Own? then 1 else 0)
  }

  /** The relay's calls put in their places. */
  function Merged(hs: seq<Happening>, marks: seq<Mark>): seq<Event>
    requires OwnCount(hs) == |marks|
  {
    if hs == [] then [] else
      var n := |hs| - 1;
      match hs[n]
      case Own(at) => Merged(hs[..n], marks[..|marks| - 1]) + [AsEvent(marks[|marks| - 1], at)]
      case Other(e) => Merged(hs[..n], marks) + [e]
  }

  /** The others do not touch this flag. */
  predicate LeaveFlag(hs: seq<Happening>, name: string) {
    forall i :: 0 <= i < |hs| && hs[i].Other? ==> (hs[i].e.Denial? || hs[i].e.Lookup? ==> hs[i].e.name != name)
  }

  predicate LeaveHealth(hs: seq<Happening>) {
    forall i :: 0 <= i < |hs| && hs[i].Other? ==> !hs[i].e.Fault? && !hs[i].e.Recovery?
  }

  lemma OneOwn(p: ProviderState, m: Mark, at: Time, name: string)
    ensures var q := Apply(p, AsEvent(m, at));
      && (name in q.unsupported <==> name in p.unsupported || (name != "" && m == Lacks(name)))
      && (q.online <==> p.online && !m.Lost?)
  {
  }

  /** One more happening, the relay's own or another's, seen from one flag and from the provider's health. */
  lemma LastOnProvider(p: ProviderState, hs: seq<Happening>, marks: seq<Mark>, name: string)
    requires hs != [] && OwnCount(hs) == |marks|
    ensures var n := |hs| - 1;
      var own := hs[n].Own?;
      var rest := if own then marks[..|marks| - 1] else marks;
      var was, now := After(p, Merged(hs[..n], rest)), After(p, Merged(hs, marks));
      && (LeaveFlag(hs, name) ==>
            (name in now.unsupported <==>
               name in was.unsupported || (own && name != "" && marks[|marks| - 1] == Lacks(name))))
      && (LeaveHealth(hs) ==> (now.online <==> was.online && !(own && marks[|marks| - 1].Lost?)))
  {
    var n := |hs| - 1;
    MergedLast(p, hs, marks);
    if hs[n].Own? {
      OneOwn(After(p, Merged(hs[..n], marks[..|marks| - 1])), marks[|marks| - 1], hs[n].at, name);
    } else {
      OneOther(After(p, Merged(hs[..n], marks)), hs[n].e, name);
    }
  }

  lemma OneOther(p: ProviderState, e: Event, name: string)
    ensures (e.Denial? || e.Lookup? ==> e.name != name) ==> (name in Apply(p, e).unsupported <==> name in p.unsupported)
    ensures !e.Fault? && !e.Recovery? ==> Apply(p, e).online == p.online
  {
  }

  lemma {:induction false} MarksOnFlag(p: ProviderState, hs: seq<Happening>, marks: seq<Mark>, name: string)
    requires OwnCount(hs) == |marks| && LeaveFlag(hs, name)
    ensures name in After(p, Merged(hs, marks)).unsupported
      <==> name in p.unsupported || (name != "" && Lacks(name) in marks)
  {
    if hs != [] {
      var n := |hs| - 1;
      LastOnProvider(p, hs, marks, name);
      if hs[n].Own? {
        MarksOnFlag(p, hs[..n], marks[..|marks| - 1], name);
        assert marks == marks[..|marks| - 1] + [marks[|marks| - 1]];
      } else {
        MarksOnFlag(p, hs[..n], marks, name);
      }
    }
  }

  lemma {:induction false} MarksOnHealth(p: ProviderState, hs: seq<Happening>, marks: seq<Mark>)
    requires OwnCount(hs) == |marks| && LeaveHealth(hs)
    ensures After(p, Merged(hs, marks)).online <==> p.online && forall m :: m in marks ==> !m.Lost?
  {
    if hs != [] {
      var n := |hs| - 1;
      LastOnProvider(p, hs, marks, "");
      if hs[n].Own? {
        MarksOnHealth(p, hs[..n], marks[..|marks| - 1]);
        assert marks == marks[..|marks| - 1] + [marks[|marks| - 1]];
      } else {
        MarksOnHealth(p, hs[..n], marks);
      }
    }
  }

  lemma MergedLast(p: ProviderState, hs: seq<Happening>, marks: seq<Mark>)
    requires hs != [] && OwnCount(hs) == |marks|
    ensures var n := |hs| - 1;
      After(p, Merged(hs, marks)) == match hs[n]
        case Own(at) => Apply(After(p, Merged(hs[..n], marks[..|marks| - 1])), AsEvent(marks[|marks| - 1], at))
        case Other(e) => Apply(After(p, Merged(hs[..n], marks)), e)
  {
    var n := |hs| - 1;
    match hs[n]
    case Own(at) =>
      var before := Merged(hs[..n], marks[..|marks| - 1]);
      assert Merged(hs, marks)[..|before|] == before;
    case Other(e) =>
      var before := Merged(hs[..n], marks);
      assert Merged(hs, marks)[..|before|] == before;
  }

  /** After any run, and whatever others do to the provider meanwhile: as long as they leave a flag alone, it
      stands for exactly the methods it stood for before and those of the requests that a
      not-supported response was held against; as long as they leave its health alone, it is
      online exactly if it was and no response said otherwise. */
  lemma FlagsAreExplained(judge: ErrorHandler, policy: Policy, actions: seq<Action>, p: ProviderState,
                          hs: seq<Happening>, name: string)
    requires OwnCount(hs) == |Run(judge, policy, actions).log.marks|
    ensures var s := Run(judge, policy, actions);
      var h, q := s.log.history, After(p, Merged(hs, s.log.marks));
      && (LeaveFlag(hs, name) ==>
            (name in q.unsupported <==>
               name in p.unsupported
               || (name != "" && exists g: nat, i: nat :: Refuses(judge, h, g, i) && h[i].methodName == name)))
      && (LeaveHealth(hs) ==>
            (q.online <==> p.online && forall g: nat :: g < |h| && h[g].Got? ==> !Fatal(judge, h[g].res)))
  {
    RunRemembers(judge, policy, actions);
    var s := Run(judge, policy, actions);
    if LeaveFlag(hs, name) {
      MarksOnFlag(p, hs, s.log.marks, name);
      if name != "" { LacksExactly(judge, s.log.history, name); }
    }
    if LeaveHealth(hs) {
      MarksOnHealth(p, hs, s.log.marks);
      LostExactly(judge, s.log.history);
    }
  }
}
