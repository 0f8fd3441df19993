/** One WebSocket connection: its bounded send queue, its write pump and its close flag.
    Every function here is one step that the source takes without waiting in between. */
module Connections {
  import opened Wrappers

  const QUEUE: nat := 32

  datatype Frame<T> = Data(msg: T) | CloseFrame

  /** Where the write pump is: at its select; with a message in hand, about to write it
      (left is unset until the rest of the queue has been counted); in the flush loop with n
      messages to go; or gone. */
  datatype Writer<T> = Selecting | Holding(msg: T, left: Option<nat>) | Flushing(n: nat) | Exited

  /** done is the connection's context, closed the flag that lets one Close through,
      wire what the peer has been sent. */
  datatype Conn<T> = Conn(done: bool, closed: bool, send: seq<T>, wire: seq<Frame<T>>, w: Writer<T>)

  function Open<T>(): Conn<T> { Conn(false, false, [], [], Selecting) }

  datatype WriterAction = Take | Written | WriteFails | Next | SeeDone | PingFails

  predicate WriterEnabled<T>(c: Conn<T>, a: WriterAction) {
    match a
    case Take => c.w == Selecting && c.send != []
    case Written => c.w.Holding?
    case WriteFails => c.w.Holding?
    case Next => c.w.Flushing? && (c.w.n == 0 || c.send != [])
    case SeeDone => c.w == Selecting && c.done
    case PingFails => c.w == Selecting
  }

  function WriterStep<T>(c: Conn<T>, a: WriterAction): Conn<T> {
    if !WriterEnabled(c, a) then c else
      match a
      case Take => c.(w := Holding(c.send[0], None), send := c.send[1..])
      case Written =>
        c.(wire := c.wire + [Data(c.w.msg)],
           w := Flushing(if c.w.left.Some? then c.w.left.value else |c.send|))
      case WriteFails => c.(w := Exited, done := true)
      case Next =>
        if c.w.n == 0 then c.(w := Selecting)
        else c.(w := Holding(c.send[0], Some(c.w.n - 1)), send := c.send[1..])
      case SeeDone => c.(w := Exited)
      case PingFails => c.(w := Exited, done := true)
  }

  predicate HasRoom<T>(c: Conn<T>) { |c.send| < QUEUE }

  function Push<T>(c: Conn<T>, m: T): Conn<T> { c.(send := c.send + [m]) }

  /** The write pump takes a close message from a closer waiting to hand it over. */
  function AcceptClose<T>(c: Conn<T>): Conn<T> { c.(wire := c.wire + [CloseFrame], w := Exited) }

  /** The writer never waits inside its flush loop. */
  predicate FlushReady<T>(c: Conn<T>) {
    && (c.w.Flushing? ==> c.w.n <= |c.send|)
    && (c.w.Holding? && c.w.left.Some? ==> c.w.left.value <= |c.send|)
  }

  lemma WriterKeepsFlushReady<T>(c: Conn<T>, a: WriterAction)
    requires FlushReady(c) && |c.send| <= QUEUE
    ensures FlushReady(WriterStep(c, a)) && |WriterStep(c, a).send| <= QUEUE
    ensures c.w.Flushing? ==> WriterEnabled(c, Next)
  {
  }

  // --------------------------------------------------- messages on their way out

  function DataOf<T>(wire: seq<Frame<T>>): seq<T> {
    if wire == [] then [] else
      var rest := DataOf(wire[..|wire| - 1]);
      match wire[|wire| - 1]
      case Data(m) => rest + [m]
      case CloseFrame => rest
  }

  lemma DataOfAppend<T>(wire: seq<Frame<T>>, f: Frame<T>)
    ensures DataOf(wire + [f]) == DataOf(wire) + (if f.Data? then [f.msg] else [])
  {
    assert (wire + [f])[..|wire|] == wire;
  }

  function Held<T>(w: Writer<T>): seq<T> { if w.Holding? then [w.msg] else [] }

  /** Everything this connection was given to send: written, in hand, and queued. */
  function Stream<T>(c: Conn<T>): seq<T> { DataOf(c.wire) + Held(c.w) + c.send }

  /** The writer moves messages along without reordering; a failed write loses the one in hand. */
  lemma WriterKeepsStream<T>(c: Conn<T>, a: WriterAction)
    ensures a != WriteFails ==> Stream(WriterStep(c, a)) == Stream(c)
    ensures a == WriteFails && WriterEnabled(c, a) ==>
      && Stream(c) == DataOf(c.wire) + [c.w.msg] + c.send
      && Stream(WriterStep(c, a)) == DataOf(c.wire) + c.send
      && WriterStep(c, a).done
    ensures !WriterEnabled(c, a) ==> WriterStep(c, a) == c
    ensures c.done ==> WriterStep(c, a).done
  {
    if WriterEnabled(c, a) {
      match a {
        case Take => TakeKeepsStream(c, None);
        case Written => WritingKeepsStream(c, if c.w.left.Some? then c.w.left.value else |c.send|);
        case Next => if c.w.n != 0 { TakeKeepsStream(c, Some(c.w.n - 1)); }
        case _ =>
      }
    }
  }

  lemma TakeKeepsStream<T>(c: Conn<T>, left: Option<nat>)
    requires !c.w.Holding? && c.send != []
    ensures Stream(c.(w := Holding(c.send[0], left), send := c.send[1..])) == Stream(c)
  {
    assert c.send == [c.send[0]] + c.send[1..];
  }

  lemma WritingKeepsStream<T>(c: Conn<T>, n: nat)
    requires c.w.Holding?
    ensures Stream(c.(wire := c.wire + [Data(c.w.msg)], w := Flushing(n))) == Stream(c)
  {
    DataOfAppend(c.wire, Data(c.w.msg));
  }

  lemma PushExtendsStream<T>(c: Conn<T>, m: T)
    ensures Stream(Push(c, m)) == Stream(c) + [m]
  {
  }

  lemma AcceptCloseKeepsStream<T>(c: Conn<T>)
    requires c.w == Selecting
    ensures Stream(AcceptClose(c)) == Stream(c)
  {
    DataOfAppend(c.wire, CloseFrame);
  }

  // ---------------------------------------------------------------- close frames

  /** Which frames on the wire are close frames. */
  function CloseFrames<T>(wire: seq<Frame<T>>): (fs: seq<bool>)
    ensures |fs| == |wire| && forall i :: 0 <= i < |wire| ==> fs[i] == wire[i].CloseFrame?
  {
    seq(|wire|, i requires 0 <= i < |wire| => wire[i].CloseFrame?)
  }

  lemma FramesMore<T>(wire: seq<Frame<T>>, f: Frame<T>)
    ensures CloseFrames(wire + [f]) == CloseFrames(wire) + [f.CloseFrame?]
    ensures true in CloseFrames(wire + [f]) <==> true in CloseFrames(wire) || f.CloseFrame?
  {
    assert CloseFrames(wire + [f]) == CloseFrames(wire) + [f.CloseFrame?];
  }

  /** The write pump of its own sends no close frame. */
  lemma WriterSendsNoCloseFrame<T>(c: Conn<T>, a: WriterAction)
    ensures true in CloseFrames(WriterStep(c, a).wire) <==> true in CloseFrames(c.wire)
  {
    if WriterEnabled(c, a) && a == Written {
      FramesMore(c.wire, Data(c.w.msg));
    }
  }

  /** A writer that is gone while the context lives has sent a close frame last, and after a close frame
      comes nothing. */
  predicate SaysGoodbye<T>(c: Conn<T>) {
    && (c.w.Exited? && !c.done ==> c.wire != [] && c.wire[|c.wire| - 1].CloseFrame?)
    && (forall i :: 0 <= i < |c.wire| && c.wire[i].CloseFrame? ==> c.w.Exited? && i == |c.wire| - 1)
  }

  lemma WriterKeepsGoodbye<T>(c: Conn<T>, a: WriterAction)
    requires SaysGoodbye(c)
    ensures SaysGoodbye(WriterStep(c, a))
  {
  }

  lemma AcceptCloseKeepsGoodbye<T>(c: Conn<T>)
    ensures SaysGoodbye(c) && c.w.Selecting? ==> SaysGoodbye(AcceptClose(c))
  {
  }
}
