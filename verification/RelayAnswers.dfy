/** Which request a response answers, as far as anybody can tell, and which it is held against. */
module RelayAnswers {
  import opened Rpc
  import opened Relay
  import opened RelayAttribution

  /** The requests under a key that still await an answer: each response answers one of them, if there
      is one, and nothing says which. */
  function Owed(h: seq<Exchange>, k: string): nat {
    if h == [] then 0 else
      var before, e := Owed(h[..|h| - 1], k), h[|h| - 1];
      if KeyIn(e) != k then before
      else if e.Sent? then before + 1
      else if before == 0 then 0
      else before - 1
  }

  lemma OwedAfter(h: seq<Exchange>, n: nat, k: string)
    requires n < |h|
    ensures Owed(h[..n + 1], k)
      == if KeyIn(h[n]) != k then Owed(h[..n], k)
         else if h[n].Sent? then Owed(h[..n], k) + 1
         else if Owed(h[..n], k) == 0 then 0 else Owed(h[..n], k) - 1
  {
    assert h[..n + 1][..n] == h[..n];
  }

  /** The response at position g may be the answer to request i: at no point since i was sent had all
      requests under its key been answered. */
  ghost predicate MayAnswer(h: seq<Exchange>, g: nat, i: nat) {
    && i < g < |h| && h[i].Sent? && h[g].Got? && h[i].key == ResKey(h[g].res) && h[i].key != ""
    && forall n :: i < n <= g ==> Owed(h[..n], h[i].key) >= 1
  }

  /** The method the response at position g is held against. */
  function HeldAgainst(h: seq<Exchange>, g: nat): string
    requires g < |h| && h[g].Got?
  {
    Latest(h[..g], ResKey(h[g].res))
  }

  ghost predicate RightlyHeld(h: seq<Exchange>) {
    forall g: nat, i: nat :: MayAnswer(h, g, i) ==> HeldAgainst(h, g) == h[i].methodName
  }

  /** The requests a response may answer all name one method. */
  ghost predicate MethodsInFlightAgree(h: seq<Exchange>) {
    forall g: nat, i: nat, j: nat :: MayAnswer(h, g, i) && MayAnswer(h, g, j) ==> h[i].methodName == h[j].methodName
  }

  /** Under the key of a response that may answer a named request, the latest message is a request: no
      two responses come in a row while a request is owed its answer. */
  ghost predicate AnswersFollowRequests(h: seq<Exchange>) {
    forall g: nat, i: nat :: MayAnswer(h, g, i) && h[i].methodName != "" ==>
      exists l: nat :: OpenAt(h[..g], h[i].key, l, g)
  }

  /** While nothing happens under its key a request stays owed. */
  lemma {:induction false} OpenIsOwed(h: seq<Exchange>, k: string, l: nat, n: nat)
    requires l < n <= |h| && h[l].Sent? && h[l].key == k && forall j :: l < j < n ==> KeyIn(h[j]) != k
    ensures Owed(h[..n], k) >= 1
    decreases n
  {
    OwedAfter(h, n - 1, k);
    if l < n - 1 {
      OpenIsOwed(h, k, l, n - 1);
    }
  }

  /** A response is held against the latest request it may answer, and against nothing if another
      response has come since. */
  lemma HeldAgainstLatest(h: seq<Exchange>, g: nat)
    requires g < |h| && h[g].Got? && ResKey(h[g].res) != ""
    ensures forall l: nat :: OpenAt(h[..g], ResKey(h[g].res), l, g) ==>
      MayAnswer(h, g, l) && HeldAgainst(h, g) == h[l].methodName
    ensures (forall l: nat :: !OpenAt(h[..g], ResKey(h[g].res), l, g)) ==> HeldAgainst(h, g) == ""
  {
    var k := ResKey(h[g].res);
    forall l: nat | OpenAt(h[..g], k, l, g)
      ensures MayAnswer(h, g, l) && HeldAgainst(h, g) == h[l].methodName
    {
      LatestIsOpen(h[..g], k, l);
      forall n | l < n <= g
        ensures Owed(h[..n], k) >= 1
      {
        assert forall j :: l < j < n ==> KeyIn(h[j]) == KeyIn(h[..g][j]);
        OpenIsOwed(h, k, l, n);
      }
    }
    if forall l: nat :: !OpenAt(h[..g], k, l, g) {
      NothingOpen(h[..g], k);
    }
  }

  /** Every response is held against the method of each request it may answer exactly when the requests
      it may answer name one method and no two responses under a key come in a row while one is owed. */
  lemma AttributionExactly(h: seq<Exchange>)
    ensures RightlyHeld(h) <==> MethodsInFlightAgree(h) && AnswersFollowRequests(h)
  {
    forall g: nat, i: nat | MayAnswer(h, g, i)
      ensures HeldAgainst(h, g) != "" ==> exists l: nat :: OpenAt(h[..g], h[i].key, l, g)
      ensures MethodsInFlightAgree(h) && AnswersFollowRequests(h) ==> HeldAgainst(h, g) == h[i].methodName
    {
      HeldAgainstLatest(h, g);
    }
  }

  /** At most one request under each key awaits its answer at any time. */
  ghost predicate KeysInFlightDistinct(h: seq<Exchange>) {
    forall k: string, n: nat :: k != "" && n <= |h| ==> Owed(h[..n], k) <= 1
  }

  /** With distinct keys in flight a response is held against exactly the request it answers. */
  lemma ResponseFindsItsRequest(h: seq<Exchange>, g: nat, i: nat)
    requires KeysInFlightDistinct(h) && MayAnswer(h, g, i)
    ensures OpenAt(h[..g], h[i].key, i, g) && HeldAgainst(h, g) == h[i].methodName
  {
    var k := h[i].key;
    forall j | i < j < g
      ensures KeyIn(h[..g][j]) != k
    {
      OwedAfter(h, j, k);
      assert Owed(h[..j], k) == 1 && Owed(h[..j + 1], k) == 1;
    }
    HeldAgainstLatest(h, g);
  }

  lemma DistinctKeysAreRight(h: seq<Exchange>)
    requires KeysInFlightDistinct(h)
    ensures RightlyHeld(h)
  {
    forall g: nat, i: nat | MayAnswer(h, g, i)
      ensures HeldAgainst(h, g) == h[i].methodName
    {
      ResponseFindsItsRequest(h, g, i);
    }
  }
}
