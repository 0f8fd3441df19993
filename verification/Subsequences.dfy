/** In-order subsequences: what is left of a stream after some of its members were lost. */
module Subsequences {

  ghost predicate Subseq<T>(a: seq<T>, b: seq<T>) {
    || a == []
    || (b != [] && ((a[0] == b[0] && Subseq(a[1..], b[1..])) || Subseq(a, b[1..])))
  }

  lemma {:induction false} SubseqReflexive<T>(a: seq<T>)
    ensures Subseq(a, a)
  {
    if a != [] {
      SubseqReflexive(a[1..]);
    }
  }

  lemma {:induction false} SubseqTransitive<T>(a: seq<T>, b: seq<T>, c: seq<T>)
    requires Subseq(a, b) && Subseq(b, c)
    ensures Subseq(a, c)
    decreases |b| + |c|
  {
    if a != [] {
      if b[0] == c[0] && Subseq(b[1..], c[1..]) {
        if a[0] == b[0] && Subseq(a[1..], b[1..]) {
          SubseqTransitive(a[1..], b[1..], c[1..]);
        } else {
          SubseqTransitive(a, b[1..], c[1..]);
        }
      } else {
        SubseqTransitive(a, b, c[1..]);
      }
    }
  }

  lemma {:induction false} SubseqPrepend<T>(p: seq<T>, a: seq<T>, b: seq<T>)
    requires Subseq(a, b)
    ensures Subseq(a, p + b)
  {
    if p == [] {
      assert p + b == b;
    } else {
      SubseqPrepend(p[1..], a, b);
      assert (p + b)[1..] == p[1..] + b;
    }
  }

  /** Two subsequences side by side. */
  lemma {:induction false} SubseqConcat<T>(a: seq<T>, b: seq<T>, c: seq<T>, d: seq<T>)
    requires Subseq(a, b) && Subseq(c, d)
    ensures Subseq(a + c, b + d)
    decreases |b|
  {
    if a == [] {
      assert a + c == c;
      SubseqPrepend(b, c, d);
    } else {
      assert (b + d)[1..] == b[1..] + d;
      if a[0] == b[0] && Subseq(a[1..], b[1..]) {
        SubseqConcat(a[1..], b[1..], c, d);
        assert (a + c)[1..] == a[1..] + c;
      } else {
        SubseqConcat(a, b[1..], c, d);
      }
    }
  }

  /** Losing one member leaves a subsequence. */
  lemma SubseqLose<T>(a: seq<T>, x: T, b: seq<T>)
    ensures Subseq(a + b, a + [x] + b)
  {
    SubseqReflexive(a);
    SubseqReflexive(b);
    SubseqPrepend([x], b, b);
    SubseqConcat(a, a, b, [x] + b);
    assert a + ([x] + b) == a + [x] + b;
  }

  lemma SubseqPrefix<T>(a: seq<T>, b: seq<T>, c: seq<T>)
    requires Subseq(a + b, c)
    ensures Subseq(a, c)
  {
    SubseqReflexive(a);
    SubseqConcat(a, a, [], b);
    assert a + [] == a;
    SubseqTransitive(a, a + b, c);
  }

  /** A subsequence holds no member more often than the whole: nothing is duplicated or invented. */
  lemma {:induction false} SubseqCounts<T>(a: seq<T>, b: seq<T>)
    requires Subseq(a, b)
    ensures multiset(a) <= multiset(b)
    decreases |b|
  {
    if a != [] {
      assert b == [b[0]] + b[1..];
      if a[0] == b[0] && Subseq(a[1..], b[1..]) {
        assert a == [a[0]] + a[1..];
        SubseqCounts(a[1..], b[1..]);
      } else {
        SubseqCounts(a, b[1..]);
      }
    }
  }
}
