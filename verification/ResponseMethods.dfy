/** Which method each response of a batch belongs to. Responses may come in any order
    (section 6 of the JSON-RPC 2.0 Specification) and are matched to requests by key. */
module ResponseMethods {
  import opened Wrappers
  import opened Rpc

  /** Request j is the only one with this key. */
  predicate OnlyHolder(reqs: seq<Request>, key: string, j: nat) {
    && j < |reqs| && ReqKey(reqs[j]) == key
    && forall k :: 0 <= k < |reqs| && ReqKey(reqs[k]) == key ==> k == j
  }

  predicate HasOnlyHolder(reqs: seq<Request>, key: string) {
    exists j: nat :: j < |reqs| && OnlyHolder(reqs, key, j)
  }

  /** The method of the response at position i: that of the one request with its key, else
      that of the request at its position. */
  ghost function MethodFor(reqs: seq<Request>, key: string, i: nat): (m: string)
    requires i < |reqs|
    ensures forall j: nat :: key != "" && OnlyHolder(reqs, key, j) ==> m == reqs[j].methodName
    ensures key == "" || !HasOnlyHolder(reqs, key) ==> m == reqs[i].methodName
  {
    if key != "" && HasOnlyHolder(reqs, key) then
      var j: nat :| j < |reqs| && OnlyHolder(reqs, key, j);
      reqs[j].methodName
    else reqs[i].methodName
  }

  method ResponseMethods(req: BatchRequest, res: BatchResponse) returns (methods: seq<string>)
    requires |res.responses| == |req.requests| > 0
    requires !req.isBatch ==> |req.requests| == 1
    ensures |methods| == |res.responses|
    ensures forall i :: 0 <= i < |methods| ==> methods[i] == MethodFor(req.requests, ResKey(res.responses[i]), i)
  {
    var reqs := req.requests;
    if !req.isBatch {
      OneRequestOneMethod(reqs, ResKey(res.responses[0]));
      methods := [reqs[0].methodName];
      return;
    }
    var byId, dup := IndexByKey(reqs);
    methods := LookUpAll(reqs, res.responses, byId, dup);
  }

  /** The second of the two loops. */
  method LookUpAll(reqs: seq<Request>, rs: seq<Response>, byId: map<string, string>, dup: set<string>)
    returns (methods: seq<string>)
    requires |reqs| == |rs| && Indexed(reqs, |reqs|, byId, dup)
    ensures |methods| == |rs|
    ensures forall i :: 0 <= i < |methods| ==> methods[i] == MethodFor(reqs, ResKey(rs[i]), i)
  {
    methods := [];
    var i := 0;
    while i < |rs|
      invariant 0 <= i <= |rs| && |methods| == i
      invariant forall k :: 0 <= k < i ==> methods[k] == MethodFor(reqs, ResKey(rs[k]), k)
    {
      var id := ResKey(rs[i]);
      IndexAnswers(reqs, byId, dup, id, i);
      if id in byId && id != "" && id !in dup {
        methods := methods + [byId[id]];
      } else {
        methods := methods + [reqs[i].methodName];
      }
      i := i + 1;
    }
  }

  /** The first of the two loops. */
  method IndexByKey(reqs: seq<Request>) returns (byId: map<string, string>, dup: set<string>)
    ensures Indexed(reqs, |reqs|, byId, dup)
  {
    byId, dup := map[], {};
    var n := 0;
    while n < |reqs|
      invariant 0 <= n <= |reqs|
      invariant Indexed(reqs, n, byId, dup)
    {
      var id := ReqKey(reqs[n]);
      IndexedNext(reqs, n, byId, dup);
      if id in byId {
        dup := dup + {id};
      }
      byId := byId[id := reqs[n].methodName];
      n := n + 1;
    }
  }

  lemma OneRequestOneMethod(reqs: seq<Request>, key: string)
    requires |reqs| == 1
    ensures MethodFor(reqs, key, 0) == reqs[0].methodName
  {
    if key != "" && HasOnlyHolder(reqs, key) {
      assert OnlyHolder(reqs, key, 0);
    }
  }

  ghost predicate Duplicated(reqs: seq<Request>, n: nat, key: string)
    requires n <= |reqs|
  {
    exists j, k :: 0 <= j < k < n && ReqKey(reqs[j]) == key == ReqKey(reqs[k])
  }

  /** byId maps each of the first n keys to one of its methods, dup holds those seen twice. */
  ghost predicate Indexed(reqs: seq<Request>, n: nat, byId: map<string, string>, dup: set<string>)
    requires n <= |reqs|
  {
    && (forall k :: 0 <= k < n ==> ReqKey(reqs[k]) in byId)
    && (forall key :: key in byId ==>
      exists k :: 0 <= k < n && ReqKey(reqs[k]) == key && byId[key] == reqs[k].methodName)
    && (forall key :: key in dup <==> Duplicated(reqs, n, key))
  }

  lemma IndexedNext(reqs: seq<Request>, n: nat, byId: map<string, string>, dup: set<string>)
    requires n < |reqs| && Indexed(reqs, n, byId, dup)
    ensures var id := ReqKey(reqs[n]);
      Indexed(reqs, n + 1, byId[id := reqs[n].methodName], if id in byId then dup + {id} else dup)
  {
    var id := ReqKey(reqs[n]);
    var dup' := if id in byId then dup + {id} else dup;
    forall key
      ensures key in dup' <==> Duplicated(reqs, n + 1, key)
    {
      DuplicatesSoFar(reqs, n, key);
      if id in byId {
        var k :| 0 <= k < n && ReqKey(reqs[k]) == id;
      }
    }
  }

  lemma IndexAnswers(reqs: seq<Request>, byId: map<string, string>, dup: set<string>, id: string, i: nat)
    requires Indexed(reqs, |reqs|, byId, dup) && i < |reqs|
    ensures MethodFor(reqs, id, i) == if id in byId && id != "" && id !in dup then byId[id] else reqs[i].methodName
  {
    if id in byId && id != "" && id !in dup {
      var k: nat :| k < |reqs| && ReqKey(reqs[k]) == id && byId[id] == reqs[k].methodName;
      assert OnlyHolder(reqs, id, k);
    } else {
      assert id == "" || !HasOnlyHolder(reqs, id);
    }
  }

  lemma DuplicatesSoFar(reqs: seq<Request>, n: nat, key: string)
    requires n < |reqs|
    ensures Duplicated(reqs, n + 1, key)
      <==> Duplicated(reqs, n, key) || (ReqKey(reqs[n]) == key && exists j :: 0 <= j < n && ReqKey(reqs[j]) == key)
  {
    if ReqKey(reqs[n]) == key && exists j :: 0 <= j < n && ReqKey(reqs[j]) == key {
      var j :| 0 <= j < n && ReqKey(reqs[j]) == key;
      assert 0 <= j < n < n + 1 && ReqKey(reqs[j]) == key == ReqKey(reqs[n]);
    }
  }

  // ------------------------------------------------------------- out of order batches

  function ReqKeys(reqs: seq<Request>): seq<string> {
    seq(|reqs|, i requires 0 <= i < |reqs| => ReqKey(reqs[i]))
  }

  function ResKeys(rs: seq<Response>): seq<string> {
    seq(|rs|, i requires 0 <= i < |rs| => ResKey(rs[i]))
  }

  function Names(reqs: seq<Request>): seq<string> {
    seq(|reqs|, i requires 0 <= i < |reqs| => reqs[i].methodName)
  }

  /** What the method above computes, as a sequence. */
  ghost function Methods(reqs: seq<Request>, rs: seq<Response>): seq<string>
    requires |reqs| == |rs|
  {
    seq(|rs|, i requires 0 <= i < |rs| => MethodFor(reqs, ResKey(rs[i]), i))
  }

  predicate DistinctKeys(reqs: seq<Request>) {
    && (forall i :: 0 <= i < |reqs| ==> ReqKey(reqs[i]) != "")
    && (forall i, j :: 0 <= i < j < |reqs| ==> ReqKey(reqs[i]) != ReqKey(reqs[j]))
  }

  function Images(f: string -> string, s: seq<string>): seq<string> {
    seq(|s|, i requires 0 <= i < |s| => f(s[i]))
  }

  lemma ImagesConcat(f: string -> string, a: seq<string>, b: seq<string>)
    ensures Images(f, a + b) == Images(f, a) + Images(f, b)
  {
  }

  /** Taking out position i takes one copy out of the counts, before and after applying f. */
  lemma ImagesWithout(f: string -> string, s: seq<string>, i: nat)
    requires i < |s|
    ensures var rest := s[..i] + s[i + 1..];
      && multiset(s) == multiset(rest) + multiset{s[i]}
      && multiset(Images(f, s)) == multiset(Images(f, rest)) + multiset{f(s[i])}
  {
    var front, back := s[..i], s[i + 1..];
    assert s == front + ([s[i]] + back);
    ImagesConcat(f, front, [s[i]] + back);
    ImagesConcat(f, [s[i]], back);
    ImagesConcat(f, front, back);
    assert Images(f, [s[i]]) == [f(s[i])];
  }

  lemma SameRest(a: multiset<string>, b: multiset<string>, x: string)
    requires a + multiset{x} == b + multiset{x}
    ensures a == b
  {
    assert a == (a + multiset{x}) - multiset{x} && b == (b + multiset{x}) - multiset{x};
  }

  lemma {:induction false} ImagesOfPermutation(f: string -> string, a: seq<string>, b: seq<string>)
    requires multiset(a) == multiset(b)
    ensures multiset(Images(f, a)) == multiset(Images(f, b))
    decreases |a|
  {
    if a == [] {
      assert |b| == |multiset(b)|;
    } else {
      assert a[0] in multiset(b);
      var i :| 0 <= i < |b| && b[i] == a[0];
      ImagesWithout(f, a, 0);
      ImagesWithout(f, b, i);
      var a', b' := a[..0] + a[1..], b[..i] + b[i + 1..];
      SameRest(multiset(a'), multiset(b'), a[0]);
      ImagesOfPermutation(f, a', b');
    }
  }

  ghost function MethodOfKey(reqs: seq<Request>): string -> string {
    key => if HasOnlyHolder(reqs, key) then
             var j: nat :| j < |reqs| && OnlyHolder(reqs, key, j); reqs[j].methodName
           else ""
  }

  lemma KeyFindsItsMethod(reqs: seq<Request>, key: string, i: nat, j: nat)
    requires DistinctKeys(reqs) && i < |reqs| && j < |reqs| && ReqKey(reqs[j]) == key
    ensures MethodFor(reqs, key, i) == reqs[j].methodName == MethodOfKey(reqs)(key)
  {
    assert OnlyHolder(reqs, key, j);
    assert forall k: nat :: OnlyHolder(reqs, key, k) ==> k == j;
  }

  /** If the keys are distinct and the responses a permutation of the requests, every response
      gets the method of the request it answers, and no method is counted twice or missed. */
  lemma PermutedResponsesKeepMethods(reqs: seq<Request>, rs: seq<Response>)
    requires |reqs| == |rs| && DistinctKeys(reqs) && multiset(ReqKeys(reqs)) == multiset(ResKeys(rs))
    ensures forall i, j :: 0 <= i < |rs| && 0 <= j < |reqs| && ResKey(rs[i]) == ReqKey(reqs[j])
              ==> Methods(reqs, rs)[i] == reqs[j].methodName
    ensures multiset(Methods(reqs, rs)) == multiset(Names(reqs))
  {
    var f := MethodOfKey(reqs);
    forall i, j | 0 <= i < |rs| && 0 <= j < |reqs| && ResKey(rs[i]) == ReqKey(reqs[j])
      ensures Methods(reqs, rs)[i] == reqs[j].methodName == f(ResKey(rs[i]))
    {
      KeyFindsItsMethod(reqs, ResKey(rs[i]), i, j);
    }
    ImagesOfPermutation(f, ReqKeys(reqs), ResKeys(rs));
    MethodsAreApplied(reqs, rs);
  }

  lemma MethodsAreApplied(reqs: seq<Request>, rs: seq<Response>)
    requires |reqs| == |rs| && DistinctKeys(reqs) && multiset(ReqKeys(reqs)) == multiset(ResKeys(rs))
    ensures Images(MethodOfKey(reqs), ResKeys(rs)) == Methods(reqs, rs)
    ensures Images(MethodOfKey(reqs), ReqKeys(reqs)) == Names(reqs)
  {
    forall i | 0 <= i < |rs|
      ensures Methods(reqs, rs)[i] == MethodOfKey(reqs)(ResKeys(rs)[i])
    {
      assert ResKeys(rs)[i] in multiset(ReqKeys(reqs));
      var j :| 0 <= j < |reqs| && ReqKeys(reqs)[j] == ResKeys(rs)[i];
      KeyFindsItsMethod(reqs, ResKey(rs[i]), i, j);
    }
    forall j | 0 <= j < |reqs|
      ensures Names(reqs)[j] == MethodOfKey(reqs)(ReqKeys(reqs)[j])
    {
      KeyFindsItsMethod(reqs, ReqKey(reqs[j]), j, j);
    }
  }

  /** Any other response falls back to its position, and to nothing else. */
  lemma FallsBackToPosition(reqs: seq<Request>, rs: seq<Response>, i: nat)
    requires |reqs| == |rs| && i < |rs|
    requires ResKey(rs[i]) == ""
      || (forall j :: 0 <= j < |reqs| ==> ReqKey(reqs[j]) != ResKey(rs[i]))
      || (exists j, k :: 0 <= j < k < |reqs| && ReqKey(reqs[j]) == ResKey(rs[i]) == ReqKey(reqs[k]))
    ensures Methods(reqs, rs)[i] == reqs[i].methodName
  {
    assert ResKey(rs[i]) == "" || !HasOnlyHolder(reqs, ResKey(rs[i]));
  }
}
