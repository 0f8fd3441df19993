/** A first-in first-out line of stages between two sockets, seen without its goroutines:
    messages accepted by one pump are queued, fetched by the other pump and handed to a
    connection. Both directions of the relay are such lines. */
module Pipelines {
  import opened Subsequences

  /** Stages, the furthest first: given to the connection, in the writing pump's hand, in the
      channel, in the accepting pump's hand, given up by the accepting pump. */
  datatype Line<T> = Line(sent: seq<T>, pump: seq<T>, queue: seq<T>, hand: seq<T>, dropped: seq<T>)

  datatype Move<T> =
    | Stay
    | Accept(xs: seq<T>)
    | Enqueue
    | Fetch
    | Deliver
    | GiveUp
    | DropInPump
    | LoseSent(kept: seq<T>)

  ghost predicate Possible<T>(l: Line<T>, m: Move<T>) {
    match m
    case Stay => true
    case Accept(_) => l.hand == [] && l.dropped == []
    case Enqueue => l.hand != []
    case Fetch => l.pump == [] && l.queue != []
    case Deliver => true
    case GiveUp => l.dropped == []
    case DropInPump => true
    case LoseSent(kept) => Subseq(kept, l.sent)
  }

  function Advance<T>(l: Line<T>, m: Move<T>): Line<T> {
    match m
    case Stay => l
    case Accept(xs) => l.(hand := xs)
    case Enqueue => if l.hand == [] then l else l.(queue := l.queue + [l.hand[0]], hand := l.hand[1..])
    case Fetch => if l.queue == [] then l else l.(pump := [l.queue[0]], queue := l.queue[1..])
    case Deliver => l.(sent := l.sent + l.pump, pump := [])
    case GiveUp => l.(hand := [], dropped := l.hand)
    case DropInPump => l.(pump := [])
    case LoseSent(kept) => l.(sent := kept)
  }

  predicate Lossy<T>(m: Move<T>) { m.DropInPump? || m.LoseSent? }

  function Gained<T>(m: Move<T>): seq<T> { if m.Accept? then m.xs else [] }

  function Behind<T>(l: Line<T>): seq<T> { l.hand + l.dropped }

  function All<T>(l: Line<T>): seq<T> { l.sent + (l.pump + (l.queue + Behind(l))) }

  lemma EnqueueKeepsAll<T>(l: Line<T>)
    requires Possible(l, Enqueue)
    ensures All(Advance(l, Enqueue)) == All(l)
  {
    var l' := Advance(l, Enqueue);
    assert Behind(l) == [l.hand[0]] + Behind(l');
    assert l'.queue + Behind(l') == l.queue + Behind(l);
  }

  lemma FetchKeepsAll<T>(l: Line<T>)
    requires Possible(l, Fetch)
    ensures All(Advance(l, Fetch)) == All(l)
  {
    var l' := Advance(l, Fetch);
    assert l'.pump + (l'.queue + Behind(l)) == l.queue + Behind(l);
    assert l.pump + (l.queue + Behind(l)) == l.queue + Behind(l);
  }

  lemma DeliverKeepsAll<T>(l: Line<T>)
    ensures All(Advance(l, Deliver)) == All(l)
  {
    var back := l.queue + Behind(l);
    assert [] + back == back;
    assert (l.sent + l.pump) + back == l.sent + (l.pump + back);
  }

  lemma AcceptExtendsAll<T>(l: Line<T>, xs: seq<T>)
    requires Possible(l, Accept(xs))
    ensures All(Advance(l, Accept(xs))) == All(l) + xs
  {
    assert Behind(l) == [] && Behind(Advance(l, Accept(xs))) == xs;
    assert l.queue + xs == l.queue + [] + xs;
    assert l.pump + (l.queue + xs) == (l.pump + (l.queue + [])) + xs;
  }

  lemma LossesLeaveSubseq<T>(l: Line<T>, m: Move<T>)
    requires Possible(l, m) && Lossy(m)
    ensures Subseq(All(Advance(l, m)), All(l))
  {
    var back := l.queue + Behind(l);
    SubseqReflexive(back);
    if m.DropInPump? {
      assert [] + back == back;
      SubseqPrepend(l.pump, back, back);
      SubseqReflexive(l.sent);
      SubseqConcat(l.sent, l.sent, back, l.pump + back);
    } else {
      SubseqReflexive(l.pump + back);
      SubseqConcat(m.kept, l.sent, l.pump + back, l.pump + back);
    }
  }

  /** input is what has been accepted so far; exact holds as long as nothing can have been lost. */
  ghost predicate Conserves<T>(l: Line<T>, input: seq<T>, exact: bool) {
    Subseq(All(l), input) && (exact ==> All(l) == input)
  }

  lemma AdvanceConserves<T>(l: Line<T>, m: Move<T>, input: seq<T>, exact: bool)
    requires Conserves(l, input, exact) && Possible(l, m)
    ensures Conserves(Advance(l, m), input + Gained(m), exact && !Lossy(m))
  {
    assert input + [] == input;
    match m {
      case Accept(xs) =>
        AcceptExtendsAll(l, xs);
        SubseqReflexive(xs);
        SubseqConcat(All(l), input, xs, xs);
      case Enqueue => EnqueueKeepsAll(l);
      case Fetch => FetchKeepsAll(l);
      case Deliver => DeliverKeepsAll(l);
      case GiveUp =>
        assert Behind(Advance(l, m)) == Behind(l);
      case Stay =>
      case _ =>
        LossesLeaveSubseq(l, m);
        SubseqTransitive(All(Advance(l, m)), All(l), input);
    }
  }

  /** What left the far end first is an in-order part of the input, and a prefix while exact. */
  lemma FrontConserves<T>(l: Line<T>, front: seq<T>, rest: seq<T>, input: seq<T>, exact: bool)
    requires Conserves(l, input, exact) && l.sent == front + rest
    ensures Subseq(front, input) && multiset(front) <= multiset(input)
    ensures exact ==> front <= input
  {
    var tail := rest + (l.pump + (l.queue + Behind(l)));
    assert All(l) == front + tail;
    SubseqPrefix(front, tail, input);
    SubseqCounts(front, input);
  }
}
