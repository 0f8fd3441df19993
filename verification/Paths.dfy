/** Which paths of the HTTP API are forwarded, and how they are put into an upstream URL. */
module Paths {
  import opened Wrappers

  /** Paths are byte strings; a byte is written as the character with its code. */
  type Byte = c: char | c as int < 256 witness 'a'

  type Path = seq<Byte>

  // ---------------------------------------------------------------------- segments

  /** The parts between slashes; there is always at least one. */
  function Split(path: Path): (segments: seq<Path>)
    ensures |segments| > 0
  {
    if path == [] then [[]]
    else if path[0] == '/' then [[]] + Split(path[1..])
    else var rest := Split(path[1..]); [[path[0]] + rest[0]] + rest[1..]
  }

  function Join(segments: seq<Path>): Path
    requires |segments| > 0
  {
    if |segments| == 1 then segments[0] else segments[0] + ['/'] + Join(segments[1..])
  }

  predicate Slashless(s: Path) { '/' !in s }

  lemma {:induction false} JoinUndoesSplit(path: Path)
    ensures Join(Split(path)) == path
    ensures forall i :: 0 <= i < |Split(path)| ==> Slashless(Split(path)[i])
  {
    if path != [] {
      JoinUndoesSplit(path[1..]);
      var rest := Split(path[1..]);
      if path[0] == '/' {
        assert Split(path)[1..] == rest;
      } else {
        assert Split(path)[0] == [path[0]] + rest[0] && Split(path)[1..] == rest[1..];
        if |rest| > 1 {
          assert Join(Split(path)) == [path[0]] + (rest[0] + ['/'] + Join(rest[1..]));
        }
      }
    }
  }

  lemma {:induction false} SplitOfConcat(s: Path, rest: Path)
    requires Slashless(s)
    ensures Split(s) == [s]
    ensures Split(s + ['/'] + rest) == [s] + Split(rest)
  {
    var whole := s + ['/'] + rest;
    if s == [] {
      assert whole[1..] == rest;
    } else {
      SplitOfConcat(s[1..], rest);
      assert whole[1..] == s[1..] + ['/'] + rest;
      assert s == [s[0]] + s[1..];
    }
  }

  lemma {:induction false} SplitUndoesJoin(segments: seq<Path>)
    requires |segments| > 0 && forall i :: 0 <= i < |segments| ==> Slashless(segments[i])
    ensures Split(Join(segments)) == segments
  {
    if |segments| == 1 {
      SplitOfConcat(segments[0], []);
    } else {
      SplitUndoesJoin(segments[1..]);
      SplitOfConcat(segments[0], Join(segments[1..]));
    }
  }

  // ---------------------------------------------------------------------- escaping

  predicate Alphanumeric(c: Byte) { 'a' <= c <= 'z' || 'A' <= c <= 'Z' || '0' <= c <= '9' }

  /** The bytes that stand for themselves in a path segment. */
  predicate Literal(c: Byte) { Alphanumeric(c) || c in "-_.~$&+:=@" }

  function HexDigit(n: nat): Byte
    requires n < 16
  {
    if n < 10 then ('0' as int + n) as char else ('A' as int + n - 10) as char
  }

  function HexValue(c: Byte): (n: Option<nat>)
    ensures n.Some? ==> n.value < 16
  {
    if '0' <= c <= '9' then Some(c as int - '0' as int)
    else if 'A' <= c <= 'F' then Some(c as int - 'A' as int + 10)
    else if 'a' <= c <= 'f' then Some(c as int - 'a' as int + 10)
    else None
  }

  function EscapeByte(c: Byte): (r: Path) {
    if Literal(c) then [c] else ['%', HexDigit(c as int / 16), HexDigit(c as int % 16)]
  }

  function EscapeSegment(s: Path): Path { if s == [] then [] else EscapeByte(s[0]) + EscapeSegment(s[1..]) }

  /** Percent-decoding; None for a percent sign without two hex digits. */
  function Decode(s: Path): Option<Path> {
    if s == [] then Some([])
    else if s[0] != '%' then
      match Decode(s[1..]) case Some(rest) => Some([s[0]] + rest) case None => None
    else if |s| < 3 || HexValue(s[1]).None? || HexValue(s[2]).None? then None
    else
      match Decode(s[3..])
      case Some(rest) => Some([(HexValue(s[1]).value * 16 + HexValue(s[2]).value) as char] + rest)
      case None => None
  }

  lemma HexRoundTrip(c: Byte)
    ensures HexValue(HexDigit(c as int / 16)) == Some(c as int / 16)
    ensures HexValue(HexDigit(c as int % 16)) == Some(c as int % 16)
    ensures (c as int / 16 * 16 + c as int % 16) as char == c
  {
  }

  /** Escaping leaves letters, digits and these ten characters alone and writes every other byte as a percent
      sign and two upper-case hex digits. */
  lemma EscapesExactly(c: Byte)
    ensures var n := c as int;
      EscapeByte(c)
        == if 48 <= n <= 57 || 65 <= n <= 90 || 97 <= n <= 122 || n in {36, 38, 43, 45, 46, 58, 61, 64, 95, 126}
           then [c] else ['%', "0123456789ABCDEF"[n / 16], "0123456789ABCDEF"[n % 16]]
  {
    var digits := "0123456789ABCDEF";
    forall n: nat | n < 16
      ensures HexDigit(n) == digits[n]
    {
    }
  }

  lemma DecodeEscapedByte(c: Byte, rest: Path)
    ensures Decode(EscapeByte(c) + rest)
      == match Decode(rest) case Some(d) => Some([c] + d) case None => None
  {
    var s := EscapeByte(c) + rest;
    if Literal(c) {
      assert s[1..] == rest;
    } else {
      HexRoundTrip(c);
      assert s[3..] == rest;
      assert s[1] == HexDigit(c as int / 16) && s[2] == HexDigit(c as int % 16);
    }
  }

  lemma {:induction false} DecodeUndoesEscape(s: Path)
    ensures Decode(EscapeSegment(s)) == Some(s)
  {
    if s != [] {
      DecodeUndoesEscape(s[1..]);
      DecodeEscapedByte(s[0], EscapeSegment(s[1..]));
      assert s == [s[0]] + s[1..];
    }
  }

  /** What may appear in a segment of a URL path without being read as anything else. */
  predicate Harmless(c: Byte) { Literal(c) || c == '%' }

  predicate AllHarmless(s: Path) { forall i :: 0 <= i < |s| ==> Harmless(s[i]) }

  lemma {:induction false} EscapedIsHarmless(s: Path)
    ensures AllHarmless(EscapeSegment(s))
    ensures EscapeSegment(s) == s <==> forall i :: 0 <= i < |s| ==> Literal(s[i])
    ensures |EscapeSegment(s)| >= |s|
  {
    if s != [] {
      EscapedIsHarmless(s[1..]);
      var c := s[0];
      HexRoundTrip(c);
      assert s == [c] + s[1..];
      if Literal(c) {
        assert EscapeSegment(s)[1..] == EscapeSegment(s[1..]);
      }
    }
  }

  function EscapedAll(segments: seq<Path>): (r: seq<Path>) {
    seq(|segments|, i requires 0 <= i < |segments| => EscapeSegment(segments[i]))
  }

  method EscapePath(path: Path) returns (escaped: Path)
    ensures Split(escaped) == EscapedAll(Split(path))
  {
    var parts := Split(path);
    var segments := new Path[|parts|](i requires 0 <= i < |parts| => parts[i]);
    for i := 0 to segments.Length
      invariant forall j :: 0 <= j < i ==> segments[j] == EscapeSegment(parts[j])
      invariant forall j :: i <= j < segments.Length ==> segments[j] == parts[j]
    {
      segments[i] := EscapeSegment(segments[i]);
    }
    escaped := Join(segments[..]);
    assert segments[..] == EscapedAll(parts);
    EscapedAllIsSlashless(parts);
    SplitUndoesJoin(EscapedAll(parts));
  }

  lemma EscapedAllIsSlashless(segments: seq<Path>)
    ensures forall i :: 0 <= i < |segments| ==> Slashless(EscapedAll(segments)[i])
  {
    forall i | 0 <= i < |segments|
      ensures Slashless(EscapeSegment(segments[i]))
    {
      EscapedIsHarmless(segments[i]);
    }
  }

  /** An escaped path: it has the same segments, each escaped. */
  ghost predicate Escapes(escaped: Path, path: Path) { Split(escaped) == EscapedAll(Split(path)) }

  /** A receiver that decodes segment by segment sees the path, whatever bytes are in it, and so
      different paths stay different. */
  lemma SegmentsComeBack(escaped: Path, path: Path, other: Path)
    requires Escapes(escaped, path)
    ensures |Split(escaped)| == |Split(path)|
    ensures forall i :: 0 <= i < |Split(path)| ==> Decode(Split(escaped)[i]) == Some(Split(path)[i])
    ensures Escapes(escaped, other) ==> other == path
  {
    forall i | 0 <= i < |Split(path)|
      ensures Decode(Split(escaped)[i]) == Some(Split(path)[i])
    {
      DecodeUndoesEscape(Split(path)[i]);
    }
    if Escapes(escaped, other) {
      forall i | 0 <= i < |Split(other)|
        ensures Split(other)[i] == Split(path)[i]
      {
        DecodeUndoesEscape(Split(other)[i]);
      }
      assert Split(other) == Split(path);
      JoinUndoesSplit(path);
      JoinUndoesSplit(other);
    }
  }

  /** No byte of it ends the path: there is neither a query nor a fragment. */
  lemma NothingEndsThePath(escaped: Path, path: Path)
    requires Escapes(escaped, path)
    ensures forall c :: c in escaped ==> c == '/' || Harmless(c)
    ensures '?' !in escaped && '#' !in escaped
  {
    JoinUndoesSplit(escaped);
    forall i | 0 <= i < |Split(escaped)|
      ensures AllHarmless(Split(escaped)[i])
    {
      EscapedIsHarmless(Split(path)[i]);
    }
    JoinIsHarmless(Split(escaped));
  }

  lemma {:induction false} JoinIsHarmless(segments: seq<Path>)
    requires |segments| > 0 && forall i :: 0 <= i < |segments| ==> AllHarmless(segments[i])
    ensures forall c :: c in Join(segments) ==> c == '/' || Harmless(c)
  {
    if |segments| > 1 {
      JoinIsHarmless(segments[1..]);
    }
  }

  // ---------------------------------------------------------------------- allowed paths

  const PREFIXES: seq<Path> := ["wallet/", "walletsolidity/", "walletpbft/"]

  const ROOTS: seq<Path> := ["wallet", "walletsolidity", "walletpbft"]

  predicate DotSegment(s: Path) { s == "." || s == ".." }

  predicate Clean(path: Path) {
    forall i :: 0 <= i < |Split(path)| ==> Split(path)[i] != [] && !DotSegment(Split(path)[i])
  }

  /** It goes on after one of the three API roots. */
  predicate UnderWallet(path: Path) { |Split(path)| > 1 && Split(path)[0] in ROOTS }

  method AllowedHttpApiPath(path: Path) returns (ok: bool)
    ensures ok <==> Clean(path) && UnderWallet(path)
    ensures ok <==>
      && |Split(path)| > 1 && Split(path)[0] in {"wallet", "walletsolidity", "walletpbft"}
      && forall i :: 0 <= i < |Split(path)| ==> Split(path)[i] !in {"", ".", ".."}
  {
    var segments := Split(path);
    for i := 0 to |segments|
      invariant forall j :: 0 <= j < i ==> segments[j] != [] && !DotSegment(segments[j])
    {
      if segments[i] == [] || segments[i] == "." || segments[i] == ".." {
        return false;
      }
    }
    for i := 0 to |PREFIXES|
      invariant forall j :: 0 <= j < i ==> !(|Split(path)| > 1 && Split(path)[0] == ROOTS[j])
    {
      PrefixIsFirstSegment(path, i);
      if PREFIXES[i] <= path && |path| > |PREFIXES[i]| {
        return true;
      }
    }
    return false;
  }

  lemma PrefixIsFirstSegment(path: Path, i: nat)
    requires Clean(path) && i < |PREFIXES|
    ensures PREFIXES[i] <= path && |path| > |PREFIXES[i]| <==> |Split(path)| > 1 && Split(path)[0] == ROOTS[i]
  {
    var prefix, name := PREFIXES[i], ROOTS[i];
    assert prefix == name + ['/'] && Slashless(name);
    if prefix <= path {
      assert path == name + ['/'] + path[|prefix|..];
      SplitOfConcat(name, path[|prefix|..]);
    }
    JoinUndoesSplit(path);
    var segments := Split(path);
    if |segments| > 1 && segments[0] == name {
      assert path == prefix + Join(segments[1..]);
      assert segments[1] != [];
    }
  }

  // ------------------------------------------------------------- removing dot segments

  /** The output without its last segment and the slash before it. */
  function WithoutLast(output: Path): (r: Path)
    ensures |r| <= |output|
  {
    if output == [] then [] else
      var n := |output| - 1;
      if output[n] == '/' then output[..n] else WithoutLast(output[..n])
  }

  /** Where the first segment, with its leading slash if there is one, ends. */
  function SegmentEnd(input: Path, from: nat): (n: nat)
    requires from <= |input|
    ensures from <= n <= |input|
    decreases |input| - from
  {
    if from == |input| || input[from] == '/' then from else SegmentEnd(input, from + 1)
  }

  /** The two buffers of section 5.2.4 of RFC 3986; its rules A and D are about paths without a leading slash,
      and here there always is one. */
  datatype Buffers = Buffers(input: Path, output: Path)

  /** One round of its loop, the cases in the order in which they are given there. */
  function Round(b: Buffers): (r: Buffers)
    requires b.input != []
    ensures |r.input| < |b.input|
    ensures |r.input| + |r.output| <= |b.input| + |b.output|
  {
    var input, output := b.input, b.output;
    if "/./" <= input then Buffers(input[2..], output)
    else if input == "/." then Buffers(['/'], output)
    else if "/../" <= input then Buffers(input[3..], WithoutLast(output))
    else if input == "/.." then Buffers(['/'], WithoutLast(output))
    else var n := SegmentEnd(input, 1); Buffers(input[n..], output + input[..n])
  }

  function RemoveDots(b: Buffers): (r: Path)
    ensures |r| <= |b.input| + |b.output|
    decreases |b.input|
  {
    if b.input == [] then b.output else RemoveDots(Round(b))
  }

  /** What a path resolves to. */
  function Resolved(path: Path): Path { RemoveDots(Buffers(path, [])) }

  /** Every segment with a slash before it. */
  function Led(segments: seq<Path>): Path {
    if segments == [] then [] else ['/'] + segments[0] + Led(segments[1..])
  }

  lemma {:induction false} LedIsJoin(segments: seq<Path>)
    requires |segments| > 0
    ensures Led(segments) == ['/'] + Join(segments)
  {
    if |segments| > 1 {
      LedIsJoin(segments[1..]);
    }
  }

  lemma {:induction false} SegmentEndsAtSlash(s: Path, rest: Path, from: nat)
    requires Slashless(s) && (rest == [] || rest[0] == '/') && 1 <= from <= |s| + 1
    ensures SegmentEnd(['/'] + s + rest, from) == |s| + 1
    decreases |s| - from
  {
    var input := ['/'] + s + rest;
    if from <= |s| {
      assert input[from] == s[from - 1];
      SegmentEndsAtSlash(s, rest, from + 1);
    } else if rest != [] {
      assert input[from] == rest[0];
    }
  }

  /** A dot segment at the front of the input is recognised only if it is one. */
  lemma FrontDots(s: Path, rest: Path, dots: Path)
    requires Slashless(s) && Slashless(dots) && (rest == [] || rest[0] == '/')
    ensures (['/'] + dots + ['/'] <= ['/'] + s + rest || ['/'] + s + rest == ['/'] + dots) ==> s == dots
  {
    var input := ['/'] + s + rest;
    if ['/'] + dots + ['/'] <= input || input == ['/'] + dots {
      var others := input[|dots| + 1..];
      assert input == ['/'] + dots + others && (others == [] || others[0] == '/');
      SegmentEndsAtSlash(s, rest, 1);
      SegmentEndsAtSlash(dots, others, 1);
      assert s == input[1..|s| + 1] == dots;
    }
  }

  lemma NoDotsInFront(s: Path, rest: Path)
    requires Slashless(s) && (rest == [] || rest[0] == '/') && !DotSegment(s)
    ensures var input := ['/'] + s + rest;
      && !("/./" <= input) && input != "/." && !("/../" <= input) && input != "/.."
  {
    FrontDots(s, rest, ".");
    FrontDots(s, rest, "..");
    assert ['/'] + "." + ['/'] == "/./" && ['/'] + "." == "/.";
    assert ['/'] + ".." + ['/'] == "/../" && ['/'] + ".." == "/..";
  }

  /** An ordinary segment moves over. */
  lemma OrdinaryRound(s: Path, rest: Path, output: Path)
    requires Slashless(s) && (rest == [] || rest[0] == '/') && !DotSegment(s)
    ensures RemoveDots(Buffers(['/'] + s + rest, output)) == RemoveDots(Buffers(rest, output + ['/'] + s))
  {
    var input := ['/'] + s + rest;
    NoDotsInFront(s, rest);
    SegmentEndsAtSlash(s, rest, 1);
    assert input[..|s| + 1] == ['/'] + s && input[|s| + 1..] == rest;
    assert output + (['/'] + s) == output + ['/'] + s;
    assert Round(Buffers(input, output)) == Buffers(rest, output + ['/'] + s);
  }

  /** A dot segment makes the buffers shorter. */
  lemma DotRound(s: Path, rest: Path, output: Path)
    requires (rest == [] || rest[0] == '/') && DotSegment(s)
    ensures |RemoveDots(Buffers(['/'] + s + rest, output))| < 1 + |s| + |rest| + |output|
    ensures RemoveDots(Buffers(['/'] + s + rest, output))
      == RemoveDots(Buffers(if rest == [] then ['/'] else rest, if s == "." then output else WithoutLast(output)))
  {
    var b := Buffers(['/'] + s + rest, output);
    var r := Round(b);
    assert |r.input| + |r.output| < 1 + |s| + |rest| + |output|;
    assert b.input[|s| + 1..] == rest;
    if s == "." {
      assert rest == [] ==> b.input == "/.";
      assert rest != [] ==> "/./" <= b.input;
    } else {
      assert b.input[1] == '.' && b.input[2] == '.';
      assert rest == [] ==> b.input == "/..";
      assert rest != [] ==> "/../" <= b.input;
    }
    assert r == Buffers(if rest == [] then ['/'] else rest, if s == "." then output else WithoutLast(output));
  }

  lemma Regroup(output: Path, s: Path, rest: Path)
    ensures output + (['/'] + s + rest) == output + ['/'] + s + rest
  {
  }

  /** Resolving a path leaves it alone exactly when it has no dot segment. */
  lemma {:induction false} RemoveDotsExactly(segments: seq<Path>, output: Path)
    requires forall i :: 0 <= i < |segments| ==> Slashless(segments[i])
    ensures RemoveDots(Buffers(Led(segments), output)) == output + Led(segments)
      <==> forall i :: 0 <= i < |segments| ==> !DotSegment(segments[i])
  {
    if segments != [] {
      var s, rest := segments[0], Led(segments[1..]);
      assert Led(segments) == ['/'] + s + rest;
      if DotSegment(s) {
        DotRound(s, rest, output);
      } else {
        OrdinaryRound(s, rest, output);
        RemoveDotsExactly(segments[1..], output + ['/'] + s);
        Regroup(output, s, rest);
      }
    }
  }

  // ------------------------------------------------------- what a path resolves to

  /** Reading segments from left to right, "." stays where it is, ".." goes up if it can, any other segment
      goes down; a path that ends in one of the two ends in a slash. */
  function Walked(at: seq<Path>, segments: seq<Path>): (r: seq<Path>)
    ensures segments != [] || at != [] ==> r != []
    decreases |segments|
  {
    if segments == [] then at else
      var up := if at == [] then [] else at[..|at| - 1];
      var next := if segments[0] == "." then at else if segments[0] == ".." then up else at + [segments[0]];
      if |segments| == 1 && DotSegment(segments[0]) then next + [[]] else Walked(next, segments[1..])
  }

  lemma {:induction false} LedMore(segments: seq<Path>, s: Path)
    ensures Led(segments + [s]) == Led(segments) + ['/'] + s
  {
    if segments == [] {
      assert segments + [s] == [s] && Led([s][1..]) == [];
    } else {
      LedMore(segments[1..], s);
      assert (segments + [s])[1..] == segments[1..] + [s];
    }
  }

  lemma {:induction false} WithoutLastSegment(output: Path, s: Path)
    requires Slashless(s)
    ensures WithoutLast(output + ['/'] + s) == output
  {
    var whole := output + ['/'] + s;
    var n := |whole| - 1;
    if s == [] {
      assert whole[..n] == output;
    } else {
      assert whole[..n] == output + ['/'] + s[..|s| - 1] && whole[n] == s[|s| - 1];
      WithoutLastSegment(output, s[..|s| - 1]);
    }
  }

  predicate AllSlashless(segments: seq<Path>) { forall i :: 0 <= i < |segments| ==> Slashless(segments[i]) }

  lemma GoesUp(at: seq<Path>)
    requires AllSlashless(at)
    ensures WithoutLast(Led(at)) == Led(if at == [] then [] else at[..|at| - 1])
  {
    if at != [] {
      assert at == at[..|at| - 1] + [at[|at| - 1]];
      LedMore(at[..|at| - 1], at[|at| - 1]);
      WithoutLastSegment(Led(at[..|at| - 1]), at[|at| - 1]);
    }
  }

  lemma LoneSlash(output: Path)
    ensures RemoveDots(Buffers(['/'], output)) == output + ['/']
  {
    var none: Path := [];
    OrdinaryRound(none, none, output);
    assert ['/'] + none + none == ['/'] && output + ['/'] + none == output + ['/'];
  }

  lemma {:induction false} RemoveDotsWalks(at: seq<Path>, segments: seq<Path>)
    requires AllSlashless(at) && AllSlashless(segments)
    ensures RemoveDots(Buffers(Led(segments), Led(at))) == Led(Walked(at, segments))
    decreases |segments|
  {
    if segments != [] {
      var s, rest := segments[0], Led(segments[1..]);
      if DotSegment(s) {
        DotRound(s, rest, Led(at));
        GoesUp(at);
        var next := if s == "." then at else if at == [] then [] else at[..|at| - 1];
        if |segments| == 1 {
          LoneSlash(Led(next));
          LedMore(next, []);
        } else {
          RemoveDotsWalks(next, segments[1..]);
        }
      } else {
        OrdinaryRound(s, rest, Led(at));
        LedMore(at, s);
        RemoveDotsWalks(at + [s], segments[1..]);
      }
    }
  }

  /** Every path resolves to where its segments lead. */
  lemma ResolvedIsWalked(path: Path)
    ensures Resolved(['/'] + path) == ['/'] + Join(Walked([], Split(path)))
  {
    JoinUndoesSplit(path);
    LedIsJoin(Split(path));
    RemoveDotsWalks([], Split(path));
    LedIsJoin(Walked([], Split(path)));
  }

  predicate NoDots(path: Path) { forall i :: 0 <= i < |Split(path)| ==> !DotSegment(Split(path)[i]) }

  lemma ResolvesToItself(path: Path)
    ensures Resolved(['/'] + path) == ['/'] + path <==> NoDots(path)
  {
    JoinUndoesSplit(path);
    LedIsJoin(Split(path));
    RemoveDotsExactly(Split(path), []);
  }

  lemma EscapeKeepsDots(s: Path)
    ensures DotSegment(EscapeSegment(s)) <==> DotSegment(s)
  {
    var e := EscapeSegment(s);
    EscapedIsHarmless(s);
    EscapedIsHarmless(e);
    DecodeUndoesEscape(s);
    DecodeUndoesEscape(e);
    assert DotSegment(s) ==> forall i :: 0 <= i < |s| ==> Literal(s[i]);
    assert DotSegment(e) ==> forall i :: 0 <= i < |e| ==> Literal(e[i]);
  }

  lemma EscapedPathKeepsDots(escaped: Path, path: Path)
    requires Escapes(escaped, path)
    ensures NoDots(escaped) <==> NoDots(path)
  {
    forall i | 0 <= i < |Split(path)|
      ensures DotSegment(Split(escaped)[i]) <==> DotSegment(Split(path)[i])
    {
      EscapeKeepsDots(Split(path)[i]);
    }
  }

  /** A forwarded path resolves to itself, before and after escaping, and the receiver finds it
      under the prefix that allowed it. */
  lemma ForwardedPathStays(escaped: Path, path: Path)
    requires Clean(path) && Escapes(escaped, path)
    ensures Resolved(['/'] + path) == ['/'] + path
    ensures Resolved(['/'] + escaped) == ['/'] + escaped
    ensures UnderWallet(path) ==> UnderWallet(escaped) && Split(escaped)[0] == Split(path)[0]
  {
    assert NoDots(path);
    ResolvesToItself(path);
    EscapedPathKeepsDots(escaped, path);
    ResolvesToItself(escaped);
    if UnderWallet(path) {
      RootIsKept(Split(path)[0]);
    }
  }

  lemma RootIsLiteral(root: Path, c: Byte)
    requires root in ROOTS && c in root
    ensures Literal(c)
  {
    assert root == "wallet" || root == "walletsolidity" || root == "walletpbft";
  }

  lemma RootIsKept(root: Path)
    requires root in ROOTS
    ensures EscapeSegment(root) == root
  {
    forall i | 0 <= i < |root|
      ensures Literal(root[i])
    {
      RootIsLiteral(root, root[i]);
    }
    EscapedIsHarmless(root);
  }
}
