/** The JavaScript string operations this system relies on: white space as
    `String.prototype.trim` and the regular-expression class `\s` see it,
    control characters, `indexOf`, `lastIndexOf`, `slice` and `join`; and `split`,
    which the code never calls, as the reference definition `join` is stated against. */
module JsString {

  /** ECMAScript WhiteSpace and LineTerminator code points: exactly what
      `trim()` removes and what `\s` matches. */
  predicate IsWhitespace(c: char)
  {
    || c == '\t' || c == '\n' || c == '\U{B}' || c == '\U{C}' || c == '\r' || c == ' '
    || c == '\U{A0}' || c == '\U{1680}' || ('\U{2000}' <= c <= '\U{200A}')
    || c == '\U{2028}' || c == '\U{2029}' || c == '\U{202F}' || c == '\U{205F}'
    || c == '\U{3000}' || c == '\U{FEFF}'
  }

  /** The characters U+0000 to U+001F and U+007F. */
  predicate IsControl(c: char)
  {
    c <= '\U{1F}' || c == '\U{7F}'
  }

  predicate NoControl(s: string)
  {
    forall i :: 0 <= i < |s| ==> !IsControl(s[i])
  }

  /** Neither the first nor the last character is white space. */
  predicate IsTrimmed(s: string)
  {
    s == [] || (!IsWhitespace(s[0]) && !IsWhitespace(s[|s| - 1]))
  }

  function Min(a: int, b: int): int
  {
    if a <= b then a else b
  }

  /** `s.trimStart()`: the longest suffix of `s` that does not start with white space. */
  function TrimStart(s: string): (r: string)
    ensures |r| <= |s| && r == s[|s| - |r|..]
    ensures forall i :: 0 <= i < |s| - |r| ==> IsWhitespace(s[i])
    ensures r == [] || !IsWhitespace(r[0])
  {
    if s != [] && IsWhitespace(s[0]) then
      var r := TrimStart(s[1..]);
      assert r == s[|s| - |r|..];
      assert forall i :: 1 <= i < |s| - |r| ==> s[i] == s[1..][i - 1];
      r
    else s
  }

  /** `s.trimEnd()`: the longest prefix of `s` that does not end with white space. */
  function TrimEnd(s: string): (r: string)
    ensures |r| <= |s| && r == s[..|r|]
    ensures forall i :: |r| <= i < |s| ==> IsWhitespace(s[i])
    ensures r == [] || !IsWhitespace(r[|r| - 1])
  {
    if s != [] && IsWhitespace(s[|s| - 1]) then
      var r := TrimEnd(s[..|s| - 1]);
      assert r == s[..|r|];
      assert forall i :: |r| <= i < |s| - 1 ==> s[i] == s[..|s| - 1][i];
      r
    else s
  }

  /** `r` is the slice of `s` starting at `a`, and everything of `s` outside it is white space. */
  predicate CutAt(s: string, r: string, a: int)
  {
    && 0 <= a <= |s| - |r| && r == s[a..a + |r|]
    && (forall i :: 0 <= i < a ==> IsWhitespace(s[i]))
    && (forall i :: a + |r| <= i < |s| ==> IsWhitespace(s[i]))
  }

  /** `r` is `s` with nothing but white space cut from its two ends. */
  ghost predicate CutsOnlyEdges(s: string, r: string)
  {
    exists a :: CutAt(s, r, a)
  }

  /** Cutting white space from the front and then from the back cuts only the edges. */
  lemma {:induction false} CutTwice(s: string, t: string, r: string)
    requires |t| <= |s| && t == s[|s| - |t|..]
    requires forall i :: 0 <= i < |s| - |t| ==> IsWhitespace(s[i])
    requires |r| <= |t| && r == t[..|r|]
    requires forall i :: |r| <= i < |t| ==> IsWhitespace(t[i])
    ensures CutAt(s, r, |s| - |t|)
  {
    var a := |s| - |t|;
    forall i | a + |r| <= i < |s| ensures IsWhitespace(s[i]) {
      assert s[i] == t[i - a];
    }
  }

  /** `s.trim()`: `s` with its leading and trailing white space removed. The
      two clauses together determine the result. */
  function Trim(s: string): (r: string)
    ensures IsTrimmed(r)
    ensures CutsOnlyEdges(s, r)
  {
    var t := TrimStart(s);
    var r := TrimEnd(t);
    CutTwice(s, t, r);
    r
  }

  /** Trimming what is already trimmed changes nothing. */
  lemma TrimFixesTrimmed(s: string)
    requires IsTrimmed(s)
    ensures Trim(s) == s
  {
  }

  /** `trim()` is idempotent. */
  lemma TrimIdempotent(s: string)
    ensures Trim(Trim(s)) == Trim(s)
  {
    TrimFixesTrimmed(Trim(s));
  }

  /** The characters of `s` for which `drop` is false, in their order. */
  function Keep(s: string, drop: char -> bool): string
  {
    if s == [] then [] else (if drop(s[0]) then [] else [s[0]]) + Keep(s[1..], drop)
  }

  lemma {:induction false} KeepAppend(a: string, b: string, drop: char -> bool)
    ensures Keep(a + b, drop) == Keep(a, drop) + Keep(b, drop)
  {
    if a != [] {
      assert (a + b)[1..] == a[1..] + b;
      KeepAppend(a[1..], b, drop);
    } else {
      assert a + b == b;
    }
  }

  /** Filtering a text that starts with `c`. */
  lemma {:induction false} KeepCons(c: char, x: string, drop: char -> bool)
    ensures Keep([c] + x, drop) == (if drop(c) then [] else [c]) + Keep(x, drop)
  {
    assert ([c] + x)[1..] == x;
  }

  lemma {:induction false} KeepDropsAll(s: string, drop: char -> bool)
    requires forall i :: 0 <= i < |s| ==> drop(s[i])
    ensures Keep(s, drop) == []
  {
    if s != [] {
      assert forall i :: 0 <= i < |s| - 1 ==> s[1..][i] == s[i + 1];
      KeepDropsAll(s[1..], drop);
    }
  }

  /** Filtering by a predicate and then by a larger one is filtering by the larger one. */
  lemma {:induction false} KeepKeep(s: string, inner: char -> bool, outer: char -> bool)
    requires forall c :: inner(c) ==> outer(c)
    ensures Keep(Keep(s, inner), outer) == Keep(s, outer)
  {
    if s != [] {
      KeepKeep(s[1..], inner, outer);
      KeepAppend(if inner(s[0]) then [] else [s[0]], Keep(s[1..], inner), outer);
    }
  }

  /** Texts that agree once a smaller set of characters is dropped also agree
      once a larger set is dropped. */
  lemma {:induction false} KeepWiden(x: string, y: string, inner: char -> bool, outer: char -> bool)
    requires forall c :: inner(c) ==> outer(c)
    requires Keep(x, inner) == Keep(y, inner)
    ensures Keep(x, outer) == Keep(y, outer)
  {
    KeepKeep(x, inner, outer);
    KeepKeep(y, inner, outer);
  }

  /** A text of white space only keeps nothing when white space is dropped. */
  lemma {:induction false} KeepDropsSpaces(s: string, drop: char -> bool)
    requires forall c :: IsWhitespace(c) ==> drop(c)
    requires forall i :: 0 <= i < |s| ==> IsWhitespace(s[i])
    ensures Keep(s, drop) == []
  {
    KeepDropsAll(s, drop);
  }

  lemma {:induction false} KeepSplitAt(s: string, k: nat, drop: char -> bool)
    requires k <= |s|
    ensures Keep(s, drop) == Keep(s[..k], drop) + Keep(s[k..], drop)
  {
    assert s == s[..k] + s[k..];
    KeepAppend(s[..k], s[k..], drop);
  }

  /** Cutting only white space from the ends keeps every other character. */
  lemma {:induction false} KeepOfCut(s: string, r: string, a: int, drop: char -> bool)
    requires forall c :: IsWhitespace(c) ==> drop(c)
    requires CutAt(s, r, a)
    ensures Keep(r, drop) == Keep(s, drop)
  {
    var rest := s[a..];
    KeepSplitAt(s, a, drop);
    KeepSplitAt(rest, |r|, drop);
    assert rest[..|r|] == r;
    assert forall i :: 0 <= i < a ==> s[..a][i] == s[i];
    KeepDropsSpaces(s[..a], drop);
    assert forall i :: 0 <= i < |rest| - |r| ==> rest[|r|..][i] == s[a + |r| + i];
    KeepDropsSpaces(rest[|r|..], drop);
  }

  /** Trimming removes nothing but white space. */
  lemma {:induction false} TrimKeepsText(s: string, drop: char -> bool)
    requires forall c :: IsWhitespace(c) ==> drop(c)
    ensures Keep(Trim(s), drop) == Keep(s, drop)
  {
    var a :| CutAt(s, Trim(s), a);
    KeepOfCut(s, Trim(s), a, drop);
  }

  /** Removes every control character (the global replace of `[\u0000-\u001F\u007F]`):
      exactly the other characters are kept, in order. */
  function StripControl(s: string): (r: string)
    ensures NoControl(r) && |r| <= |s|
    ensures r == Keep(s, IsControl)
    ensures NoControl(s) ==> r == s
  {
    if s == [] then []
    else if IsControl(s[0]) then StripControl(s[1..])
    else [s[0]] + StripControl(s[1..])
  }

  /** `s.indexOf(c)`: the first position of `c`, or -1. */
  function IndexOf(s: string, c: char): (r: int)
    ensures -1 <= r < |s|
    ensures r == -1 <==> c !in s
    ensures r >= 0 ==> s[r] == c && forall j :: 0 <= j < r ==> s[j] != c
  {
    if s == [] then -1
    else if s[0] == c then 0
    else
      var k := IndexOf(s[1..], c);
      if k == -1 then -1 else k + 1
  }

  /** `s.lastIndexOf(c)`: the last position of `c`, or -1. */
  function LastIndexOf(s: string, c: char): (r: int)
    ensures -1 <= r < |s|
    ensures r == -1 <==> c !in s
    ensures r >= 0 ==> s[r] == c && forall j :: r < j < |s| ==> s[j] != c
  {
    if s == [] then -1
    else if s[|s| - 1] == c then |s| - 1
    else LastIndexOf(s[..|s| - 1], c)
  }

  /** `s.slice(0, n)`: the first `n` characters, or all of `s` when it is shorter. */
  function Take(s: string, n: nat): (r: string)
    ensures |r| == Min(n, |s|) && r == s[..|r|]
  {
    if |s| <= n then s else s[..n]
  }

  /** `xs.slice(-n)` for `n > 0`: the last `n` elements, or all of `xs` when it is shorter. */
  function LastN<T>(xs: seq<T>, n: nat): (r: seq<T>)
    ensures |r| == Min(n, |xs|) && r == xs[|xs| - |r|..]
  {
    if |xs| <= n then xs else xs[|xs| - n..]
  }

  /** `parts.join(sep)`. */
  function Join(parts: seq<string>, sep: char): (r: string)
    ensures sep !in r <==> |parts| <= 1 && forall i :: 0 <= i < |parts| ==> sep !in parts[i]
  {
    if |parts| == 0 then ""
    else if |parts| == 1 then parts[0]
    else parts[0] + [sep] + Join(parts[1..], sep)
  }

  /** `s.split(sep)`: the pieces between occurrences of `sep`; never empty. The
      code itself never splits: this is the reference against which the
      transcript's lines are stated. */
  function Split(s: string, sep: char): (r: seq<string>)
    ensures |r| > 0
    ensures forall i :: 0 <= i < |r| ==> sep !in r[i]
    decreases |s|
  {
    var k := IndexOf(s, sep);
    if k == -1 then [s] else [s[..k]] + Split(s[k + 1..], sep)
  }

  /** The three parts of `head + middle + tail`, recovered by slicing. */
  lemma {:induction false} Framed(head: string, middle: string, tail: string)
    ensures var r := head + middle + tail;
      && r[..|head|] == head && r[|r| - |tail|..] == tail
      && r[|head|..|r| - |tail|] == middle
  {
  }

  /** In a text that starts with a piece free of `sep` and then `sep`, the
      first `sep` is the one right after the piece, so splitting yields the
      piece and then the pieces of the rest. */
  lemma {:induction false} SplitAfterPiece(piece: string, sep: char, rest: string)
    requires sep !in piece
    ensures Split(piece + [sep] + rest, sep) == [piece] + Split(rest, sep)
  {
    var s := piece + [sep] + rest;
    assert s[|piece|] == sep;
    assert forall j :: 0 <= j < |piece| ==> s[j] == piece[j];
    assert IndexOf(s, sep) == |piece|;
    assert s[..|piece|] == piece;
    assert s[|piece| + 1..] == rest;
  }

  /** Splitting a join recovers the parts, as long as no part holds the separator. */
  lemma {:induction false} SplitJoin(parts: seq<string>, sep: char)
    requires |parts| > 0
    requires forall i :: 0 <= i < |parts| ==> sep !in parts[i]
    ensures Split(Join(parts, sep), sep) == parts
  {
    if |parts| > 1 {
      var tail := parts[1..];
      assert forall i :: 0 <= i < |tail| ==> sep !in tail[i] by {
        forall i | 0 <= i < |tail| ensures sep !in tail[i] {
          assert tail[i] == parts[i + 1];
        }
      }
      SplitJoin(tail, sep);
      assert Join(parts, sep) == parts[0] + [sep] + Join(tail, sep);
      SplitAfterPiece(parts[0], sep, Join(tail, sep));
      assert parts == [parts[0]] + tail;
    }
  }

  lemma {:induction false} JoinCons(first: string, rest: seq<string>, sep: char)
    requires rest != []
    ensures Join([first] + rest, sep) == first + [sep] + Join(rest, sep)
  {
    assert ([first] + rest)[1..] == rest;
  }

  /** Joining the pieces of a split gives back the text. */
  lemma {:induction false} JoinSplit(s: string, sep: char)
    ensures Join(Split(s, sep), sep) == s
    decreases |s|
  {
    var k := IndexOf(s, sep);
    if k != -1 {
      var piece, tail := s[..k], s[k + 1..];
      assert forall j :: 0 <= j < k ==> piece[j] == s[j];
      assert s == piece + [sep] + tail;
      SplitAfterPiece(piece, sep, tail);
      JoinSplit(tail, sep);
      JoinCons(piece, Split(tail, sep), sep);
    }
  }
}
