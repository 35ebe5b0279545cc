/** The string operations app.py relies on, with Python's meaning:
    `str.strip()` with no argument, `sep.join(parts)`, and substring
    occurrence facts used to state what a template embeds. */
module Text {

  /** Python's `str.isspace()` for one character: the characters the
      Unicode database classes as whitespace (bidirectional type WS, B or S,
      or general category Zs). `str.strip()` with no argument removes
      exactly these. */
  predicate IsSpace(c: char)
  {
    ('\t' <= c <= '\r') || ('\U{1C}' <= c <= '\U{1F}') || c == ' '
    || c == '\U{85}' || c == '\U{A0}' || c == '\U{1680}'
    || ('\U{2000}' <= c <= '\U{200A}')
    || c == '\U{2028}' || c == '\U{2029}' || c == '\U{202F}' || c == '\U{205F}'
    || c == '\U{3000}'
  }

  predicate AllSpace(s: string)
  {
    forall k :: 0 <= k < |s| ==> IsSpace(s[k])
  }

  /** `s.lstrip()`: the longest suffix of `s` that does not start with whitespace. */
  function TrimLeft(s: string): (r: string)
    ensures |r| <= |s| && r == s[|s| - |r|..]
    ensures forall k :: 0 <= k < |s| - |r| ==> IsSpace(s[k])
    ensures r != [] ==> !IsSpace(r[0])
    decreases |s|
  {
    if |s| > 0 && IsSpace(s[0]) then TrimLeft(s[1..]) else s
  }

  /** `s.rstrip()`: the longest prefix of `s` that does not end with whitespace. */
  function TrimRight(s: string): (r: string)
    ensures |r| <= |s| && r == s[..|r|]
    ensures forall k :: |r| <= k < |s| ==> IsSpace(s[k])
    ensures r != [] ==> !IsSpace(r[|r| - 1])
    decreases |s|
  {
    if |s| > 0 && IsSpace(s[|s| - 1]) then TrimRight(s[..|s| - 1]) else s
  }

  /** `s.strip()`: `s` with its leading and trailing whitespace removed.
      The result neither starts nor ends with whitespace; `StripSlice`
      says where in `s` it lies. */
  function Strip(s: string): (r: string)
    ensures |r| <= |s|
    ensures r != [] ==> !IsSpace(r[0]) && !IsSpace(r[|r| - 1])
  {
    TrimRight(TrimLeft(s))
  }

  /** The stripped text is the slice `s[i..j]`, and everything cut off on
      either side is whitespace. With `Strip`'s own contract this makes the
      slice unique. */
  lemma StripSlice(s: string) returns (i: nat, j: nat)
    ensures i <= j <= |s| && Strip(s) == s[i..j]
    ensures forall k :: 0 <= k < i ==> IsSpace(s[k])
    ensures forall k :: j <= k < |s| ==> IsSpace(s[k])
  {
    var l := TrimLeft(s);
    var r := TrimRight(l);
    i := |s| - |l|;
    j := i + |r|;
    forall k | j <= k < |s| ensures IsSpace(s[k]) {
      assert s[k] == l[k - i];
    }
  }

  /** Python's truth test `if s.strip():` fails exactly for the strings made
      of whitespace only (the empty string included). */
  lemma {:induction false} StripEmptyIffAllSpace(s: string)
    ensures Strip(s) == [] <==> AllSpace(s)
  {
    var i, j := StripSlice(s);
    if Strip(s) != [] {
      assert s[i] == Strip(s)[0];
    }
  }

  /** Stripping twice strips nothing more. */
  lemma {:induction false} StripIdempotent(s: string)
    ensures Strip(Strip(s)) == Strip(s)
  {
    var r := Strip(s);
    NoSpaceAtEndsIsFixed(r);
  }

  lemma {:induction false} NoSpaceAtEndsIsFixed(r: string)
    requires r != [] ==> !IsSpace(r[0]) && !IsSpace(r[|r| - 1])
    ensures Strip(r) == r
  {
    assert TrimLeft(r) == r;
    assert TrimRight(r) == r;
  }

  /** Python's `sep.join(parts)`: the parts in their order, with `sep`
      between each two neighbours and nowhere else. */
  function Join(parts: seq<string>, sep: string): string
    decreases |parts|
  {
    if |parts| == 0 then ""
    else if |parts| == 1 then parts[0]
    else parts[0] + sep + Join(parts[1..], sep)
  }

  /** Where `parts[i]` starts inside `Join(parts, sep)`. */
  function JoinOffset(parts: seq<string>, sep: string, i: nat): nat
    requires i <= |parts|
    decreases i
  {
    if i == 0 then 0 else JoinOffset(parts, sep, i - 1) + |parts[i - 1]| + |sep|
  }

  /** `Join` keeps every part, in order: part `i` sits at `JoinOffset(i)`,
      the separator follows every part but the last, and the joined string
      ends right after the last part. */
  lemma {:induction false} JoinLayout(parts: seq<string>, sep: string, i: nat)
    requires i < |parts|
    ensures OccursAt(Join(parts, sep), JoinOffset(parts, sep, i), parts[i])
    ensures i + 1 < |parts| ==>
              OccursAt(Join(parts, sep), JoinOffset(parts, sep, i) + |parts[i]|, sep)
    ensures i + 1 == |parts| ==>
              |Join(parts, sep)| == JoinOffset(parts, sep, i) + |parts[i]|
    decreases i
  {
    var j := Join(parts, sep);
    if |parts| == 1 {
      assert j[0..|parts[0]|] == parts[0];
    } else if i == 0 {
      assert j == parts[0] + sep + Join(parts[1..], sep);
      assert j[0..|parts[0]|] == parts[0];
      OccursInConcat(parts[0], sep, Join(parts[1..], sep));
    } else {
      var tail := parts[1..];
      JoinLayout(tail, sep, i - 1);
      JoinOffsetShift(parts, sep, i);
      var prefix := parts[0] + sep;
      assert j == prefix + Join(tail, sep);
      var o := JoinOffset(tail, sep, i - 1);
      OccursShift(prefix, Join(tail, sep), o, parts[i]);
      if i + 1 < |parts| {
        OccursShift(prefix, Join(tail, sep), o + |parts[i]|, sep);
      }
    }
  }

  /** Wherever a joined string occurs, each of its parts occurs at its offset. */
  lemma JoinedPartOccurs(s: string, k: nat, parts: seq<string>, sep: string, i: nat)
    requires i < |parts| && OccursAt(s, k, Join(parts, sep))
    ensures OccursAt(s, k + JoinOffset(parts, sep, i), parts[i])
  {
    JoinLayout(parts, sep, i);
    NestedOccurrence(s, k, Join(parts, sep), JoinOffset(parts, sep, i), parts[i]);
  }

  /** An occurrence survives putting something in front, moved by its length. */
  lemma OccursShift(prefix: string, s: string, k: nat, t: string)
    requires OccursAt(s, k, t)
    ensures OccursAt(prefix + s, |prefix| + k, t)
  {
    assert (prefix + s)[|prefix| + k..|prefix| + k + |t|] == s[k..k + |t|];
  }

  lemma {:induction false} JoinOffsetShift(parts: seq<string>, sep: string, i: nat)
    requires 0 < i <= |parts|
    ensures JoinOffset(parts, sep, i) == |parts[0]| + |sep| + JoinOffset(parts[1..], sep, i - 1)
    decreases i
  {
    if i > 1 {
      JoinOffsetShift(parts, sep, i - 1);
    }
  }

  /** `t` occurs in `s` starting at index `k`. */
  predicate OccursAt(s: string, k: nat, t: string)
  {
    k + |t| <= |s| && s[k..k + |t|] == t
  }

  /** A piece of a concatenation occurs in it where the concatenation puts it. */
  lemma OccursInConcat(a: string, t: string, b: string)
    ensures OccursAt(a + t + b, |a|, t)
  {
    assert (a + t + b)[|a|..|a| + |t|] == t;
  }

  /** An occurrence inside an occurrence is an occurrence. */
  lemma NestedOccurrence(s: string, k: nat, t: string, m: nat, u: string)
    requires OccursAt(s, k, t) && OccursAt(t, m, u)
    ensures OccursAt(s, k + m, u)
  {
    forall x | 0 <= x < |u| ensures s[k + m..k + m + |u|][x] == u[x] {
      assert u[x] == t[m + x] == s[k + m + x];
    }
  }

  /** What ends a string occurs at its end. */
  lemma OccursAtEnd(p: string, t: string)
    ensures OccursAt(p + t, |p|, t)
  {
    assert (p + t)[|p|..|p| + |t|] == t;
  }

  /** An occurrence survives appending. */
  lemma OccursExtend(s: string, k: nat, t: string, u: string)
    requires OccursAt(s, k, t)
    ensures OccursAt(s + u, k, t)
  {
    assert (s + u)[k..k + |t|] == s[k..k + |t|];
  }

  /** Where the odd-numbered pieces of a seven-piece concatenation sit,
      and how long it is. */
  lemma LayoutOfSeven(a: string, b: string, c: string, d: string, e: string, f: string, g: string)
    ensures var s := a + b + c + d + e + f + g;
            OccursAt(s, |a|, b)
            && OccursAt(s, |a| + |b| + |c|, d)
            && OccursAt(s, |a| + |b| + |c| + |d| + |e|, f)
            && |s| == |a| + |b| + |c| + |d| + |e| + |f| + |g|
  {
    OccursAtEnd(a, b);
    OccursExtend(a + b, |a|, b, c);
    OccursExtend(a + b + c, |a|, b, d);
    OccursExtend(a + b + c + d, |a|, b, e);
    OccursExtend(a + b + c + d + e, |a|, b, f);
    OccursExtend(a + b + c + d + e + f, |a|, b, g);
    OccursAtEnd(a + b + c, d);
    OccursExtend(a + b + c + d, |a| + |b| + |c|, d, e);
    OccursExtend(a + b + c + d + e, |a| + |b| + |c|, d, f);
    OccursExtend(a + b + c + d + e + f, |a| + |b| + |c|, d, g);
    OccursAtEnd(a + b + c + d + e, f);
    OccursExtend(a + b + c + d + e + f, |a| + |b| + |c| + |d| + |e|, f, g);
  }

  /** Where the even-numbered pieces of an eight-piece concatenation sit,
      and how long it is. */
  lemma LayoutOfEight(a: string, b: string, c: string, d: string, e: string, f: string, g: string, h: string)
    ensures var s := a + b + c + d + e + f + g + h;
            OccursAt(s, 0, a)
            && OccursAt(s, |a| + |b|, c)
            && OccursAt(s, |a| + |b| + |c| + |d|, e)
            && OccursAt(s, |a| + |b| + |c| + |d| + |e| + |f|, g)
            && |s| == |a| + |b| + |c| + |d| + |e| + |f| + |g| + |h|
  {
    OccursAtEnd([], a);
    assert [] + a == a;
    OccursExtend(a, 0, a, b);
    OccursExtend(a + b, 0, a, c);
    OccursExtend(a + b + c, 0, a, d);
    OccursExtend(a + b + c + d, 0, a, e);
    OccursExtend(a + b + c + d + e, 0, a, f);
    OccursExtend(a + b + c + d + e + f, 0, a, g);
    OccursExtend(a + b + c + d + e + f + g, 0, a, h);
    LayoutOfSeven(a, b, c, d, e, f, g);
    OccursExtend(a + b + c + d + e + f + g, |a| + |b|, c, h);
    OccursExtend(a + b + c + d + e + f + g, |a| + |b| + |c| + |d|, e, h);
    OccursAtEnd(a + b + c + d + e + f, g);
    OccursExtend(a + b + c + d + e + f + g, |a| + |b| + |c| + |d| + |e| + |f|, g, h);
  }

  /** In an eight-piece concatenation whose fifth piece is `x + q + y`,
      where `q` sits, and how long the whole is. */
  lemma LayoutOfEightInner(a: string, b: string, c: string, d: string, x: string, q: string, y: string,
                           f: string, g: string, h: string)
    ensures var s := a + b + c + d + (x + q + y) + f + g + h;
            OccursAt(s, |a| + |b| + |c| + |d|, x + q + y)
            && OccursAt(s, |a| + |b| + |c| + |d| + |x|, q)
            && |s| == |a| + |b| + |c| + |d| + |x| + |q| + |y| + |f| + |g| + |h|
  {
    var s := a + b + c + d + (x + q + y) + f + g + h;
    LayoutOfEight(a, b, c, d, x + q + y, f, g, h);
    OccursInConcat(x, q, y);
    NestedOccurrence(s, |a| + |b| + |c| + |d|, x + q + y, |x|, q);
  }

  /** Of two equal strings that each continue with character `d` after a
      piece free of `d`, the pieces agree, and so do the continuations. */
  lemma DelimitedPrefix(b1: string, r1: string, b2: string, r2: string, d: char)
    requires b1 + r1 == b2 + r2
    requires |r1| > 0 && r1[0] == d && |r2| > 0 && r2[0] == d
    requires d !in b1 && d !in b2
    ensures b1 == b2 && r1 == r2
  {
    ShorterPieceMeetsDelimiter(b1, r1, b2, r2);
    ShorterPieceMeetsDelimiter(b2, r2, b1, r1);
    assert |b1| == |b2|;
    assert b1 == (b1 + r1)[..|b1|] == (b2 + r2)[..|b2|] == b2;
    assert r1 == (b1 + r1)[|b1|..] == (b2 + r2)[|b2|..] == r2;
  }

  lemma ShorterPieceMeetsDelimiter(b1: string, r1: string, b2: string, r2: string)
    requires b1 + r1 == b2 + r2 && |r1| > 0
    ensures |b1| < |b2| ==> b2[|b1|] == r1[0]
  {
    if |b1| < |b2| {
      assert (b1 + r1)[|b1|] == r1[0];
      assert (b2 + r2)[|b1|] == b2[|b1|];
    }
  }

  /** In two seven-piece concatenations with the same fixed pieces, the first
      field is recovered when neither value contains the first character of
      the piece that follows it. */
  lemma SevenPieceFirstField(a: string, b1: string, c: string, d1: string, e: string, f1: string, g: string,
                             b2: string, d2: string, f2: string)
    requires a + b1 + c + d1 + e + f1 + g == a + b2 + c + d2 + e + f2 + g
    requires |c| > 0 && c[0] !in b1 && c[0] !in b2
    ensures b1 == b2
  {
    var r1 := c + d1 + e + f1 + g;
    var r2 := c + d2 + e + f2 + g;
    assert a + b1 + c + d1 + e + f1 + g == a + (b1 + r1);
    assert a + b2 + c + d2 + e + f2 + g == a + (b2 + r2);
    assert b1 + r1 == (a + (b1 + r1))[|a|..] == (a + (b2 + r2))[|a|..] == b2 + r2;
    assert r1[0] == c[0] && r2[0] == c[0];
    DelimitedPrefix(b1, r1, b2, r2, c[0]);
  }
}
