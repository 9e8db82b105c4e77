/**
 * The handful of Python string operations the test runner relies on:
 * `str.strip()`, `str.find()`, `str.split(sep)` and `sep.join(parts)`.
 * Strings are sequences of characters.
 */
module Text {

  /**
   * The characters Python 3's `str.isspace()` accepts, which are the ones
   * `str.strip()` removes: space, \t, \n, \v, \f, \r, the four separator
   * characters \x1c to \x1f, and the Unicode spaces U+0085, U+00A0, U+1680,
   * U+2000 to U+200A, U+2028, U+2029, U+202F, U+205F and U+3000.
   */
  predicate IsSpace(c: char) {
    var n := c as int;
    n == 0x20 || (0x09 <= n <= 0x0D) || (0x1C <= n <= 0x1F) || n == 0x85 || n == 0xA0 ||
    n == 0x1680 || (0x2000 <= n <= 0x200A) || n == 0x2028 || n == 0x2029 || n == 0x202F ||
    n == 0x205F || n == 0x3000
  }

  /**
   * The whitespace Python 3's `int()` skips around a literal. It turns each
   * non-ASCII `isspace()` character into a space and then skips only the
   * ASCII space, \t, \n, \v, \f and \r, so the separators \x1c to \x1f are
   * not skipped.
   */
  predicate IsIntSpace(c: char) {
    IsSpace(c) && !(0x1C <= c as int <= 0x1F)
  }

  /** No character of `s` is whitespace. */
  predicate NoSpace(s: string) {
    forall i :: 0 <= i < |s| ==> !IsSpace(s[i])
  }

  /** Every character of `s` is whitespace in the sense of `ws`. */
  predicate AllSpace(s: string, ws: char -> bool) {
    forall i :: 0 <= i < |s| ==> ws(s[i])
  }

  /** How many `ws` characters `s` starts with. */
  function LeadingSpaces(s: string, ws: char -> bool): (n: nat)
    ensures n <= |s|
  {
    if s != [] && ws(s[0]) then 1 + LeadingSpaces(s[1..], ws) else 0
  }

  /** How many `ws` characters `s` ends with. */
  function TrailingSpaces(s: string, ws: char -> bool): (n: nat)
    ensures n <= |s|
  {
    if s != [] && ws(s[|s| - 1]) then 1 + TrailingSpaces(s[..|s| - 1], ws) else 0
  }

  /**
   * `s` with the `ws` characters removed from both ends. With `IsSpace` it is
   * Python's `str.strip()` with no argument; with `IsIntSpace` it is what
   * `int()` ignores around a literal. The result neither starts nor ends
   * with such a character (`StripRemovesSpace` says what is removed).
   */
  function Strip(s: string, ws: char -> bool): (r: string)
    ensures |r| <= |s|
    ensures r == [] || (!ws(r[0]) && !ws(r[|r| - 1]))
  {
    var t := s[LeadingSpaces(s, ws)..];
    LeadingSpacesAre(s, ws);
    TrailingSpacesAre(t, ws);
    t[..|t| - TrailingSpaces(t, ws)]
  }

  /** `s` is the stripped text with whitespace before and after it. */
  lemma StripRemovesSpace(s: string, ws: char -> bool)
    ensures exists i :: 0 <= i <= |s| - |Strip(s, ws)| && s == s[..i] + Strip(s, ws) + s[i + |Strip(s, ws)|..] &&
                        AllSpace(s[..i], ws) && AllSpace(s[i + |Strip(s, ws)|..], ws)
  {
    var i := LeadingSpaces(s, ws);
    var t := s[i..];
    var r := Strip(s, ws);
    LeadingSpacesAre(s, ws);
    TrailingSpacesAre(t, ws);
    assert r == t[..|t| - TrailingSpaces(t, ws)];
    assert s == s[..i] + r + s[i + |r|..];
    assert s[i + |r|..] == t[|t| - TrailingSpaces(t, ws)..];
  }

  /** What is stripped is whitespace, and what is kept does not start or end with it. */
  lemma {:induction false} LeadingSpacesAre(s: string, ws: char -> bool)
    ensures AllSpace(s[..LeadingSpaces(s, ws)], ws)
    ensures LeadingSpaces(s, ws) < |s| ==> !ws(s[LeadingSpaces(s, ws)])
  {
    if s != [] && ws(s[0]) {
      LeadingSpacesAre(s[1..], ws);
      assert forall i :: 1 <= i < 1 + LeadingSpaces(s[1..], ws) ==> s[i] == s[1..][i - 1];
    }
  }

  lemma {:induction false} TrailingSpacesAre(s: string, ws: char -> bool)
    ensures AllSpace(s[|s| - TrailingSpaces(s, ws)..], ws)
    ensures TrailingSpaces(s, ws) < |s| ==> !ws(s[|s| - TrailingSpaces(s, ws) - 1])
  {
    if s != [] && ws(s[|s| - 1]) {
      var p := s[..|s| - 1];
      TrailingSpacesAre(p, ws);
      assert s[|s| - TrailingSpaces(s, ws)..] == p[|p| - TrailingSpaces(p, ws)..] + [s[|s| - 1]];
    }
  }

  /** Whitespace followed by a string that does not start with whitespace. */
  lemma {:induction false} LeadingSpacesPadded(w: string, s: string, ws: char -> bool)
    requires AllSpace(w, ws)
    requires s == [] || !ws(s[0])
    ensures LeadingSpaces(w + s, ws) == |w|
    decreases |w|
  {
    if w != [] {
      assert (w + s)[1..] == w[1..] + s;
      LeadingSpacesPadded(w[1..], s, ws);
    } else {
      assert w + s == s;
    }
  }

  /** A string that does not end in whitespace, followed by whitespace. */
  lemma {:induction false} TrailingSpacesPadded(s: string, v: string, ws: char -> bool)
    requires AllSpace(v, ws)
    requires s == [] || !ws(s[|s| - 1])
    ensures TrailingSpaces(s + v, ws) == |v|
    decreases |v|
  {
    if v != [] {
      assert (s + v)[..|s + v| - 1] == s + v[..|v| - 1];
      TrailingSpacesPadded(s, v[..|v| - 1], ws);
    } else {
      assert s + v == s;
    }
  }

  /** Stripping `w + s + v`, for whitespace `w` and `v` and a trimmed `s`, gives `s`. */
  lemma StripPadded(w: string, s: string, v: string, ws: char -> bool)
    requires AllSpace(w, ws) && AllSpace(v, ws)
    requires s != [] && !ws(s[0]) && !ws(s[|s| - 1])
    ensures Strip(w + s + v, ws) == s
  {
    assert w + s + v == w + (s + v);
    LeadingSpacesPadded(w, s + v, ws);
    assert (w + s + v)[|w|..] == s + v;
    TrailingSpacesPadded(s, v, ws);
    assert (s + v)[..|s|] == s;
  }

  /** A string without whitespace at its ends is left alone by a strip. */
  lemma StripTrimmed(s: string, ws: char -> bool)
    requires s == [] || (!ws(s[0]) && !ws(s[|s| - 1]))
    ensures Strip(s, ws) == s
  {
    assert s[0..] == s;
    assert s[..|s|] == s;
  }

  /** Stripping `w + s`, for whitespace `w` and a trimmed `s`, gives `s`. */
  lemma StripIndented(w: string, s: string, ws: char -> bool)
    requires AllSpace(w, ws)
    requires s == [] || (!ws(s[0]) && !ws(s[|s| - 1]))
    ensures Strip(w + s, ws) == s
  {
    LeadingSpacesPadded(w, s, ws);
    assert (w + s)[|w|..] == s;
    StripTrimmed(s, ws);
  }

  /**
   * Python's `s.find(c)` for one character: the index of the first `c`, or
   * -1 when there is none.
   */
  function Find(s: string, c: char): (i: int)
    ensures -1 <= i < |s|
    ensures i >= 0 ==> s[i] == c && c !in s[..i]
    ensures i == -1 <==> c !in s
  {
    if s == [] then -1
    else if s[0] == c then 0
    else
      var j := Find(s[1..], c);
      assert s[1..][..if j < 0 then 0 else j] == s[1..1 + (if j < 0 then 0 else j)];
      if j < 0 then -1 else 1 + j
  }

  /** The first separator after a separator-free prefix is found just after it. */
  lemma FindAfter(p: string, c: char, rest: string)
    requires c !in p
    ensures Find(p + [c] + rest, c) == |p|
  {
    var s := p + [c] + rest;
    assert s[..|p|] == p;
    assert s[|p|] == c;
  }

  /**
   * Python's `s.split(c)` for one separator character, read one character
   * at a time: a separator opens a new piece, any other character joins
   * the piece in progress.
   */
  function Split(s: string, c: char): (parts: seq<string>)
    ensures |parts| >= 1
  {
    if s == [] then [[]]
    else
      var rest := Split(s[1..], c);
      if s[0] == c then [[]] + rest else [[s[0]] + rest[0]] + rest[1..]
  }

  /** No piece of a split holds the separator. */
  lemma {:induction false} SplitPiecesFree(s: string, c: char)
    ensures forall k :: 0 <= k < |Split(s, c)| ==> c !in Split(s, c)[k]
  {
    if s != [] {
      var rest := Split(s[1..], c);
      SplitPiecesFree(s[1..], c);
      if s[0] != c {
        assert c !in [s[0]] + rest[0];
      }
    }
  }

  /** The total length of `parts`. */
  function TotalLength(parts: seq<string>): nat {
    if parts == [] then 0 else |parts[0]| + TotalLength(parts[1..])
  }

  /**
   * Python's `c.join(parts)` for one separator character: the first part,
   * and the parts with one separator between each two.
   */
  function Join(parts: seq<string>, c: char): (r: string)
    ensures parts == [] ==> r == []
    ensures parts != [] ==> parts[0] <= r && |r| == TotalLength(parts) + |parts| - 1
  {
    if parts == [] then []
    else if |parts| == 1 then parts[0]
    else parts[0] + [c] + Join(parts[1..], c)
  }

  /** Joining the pieces of a split gives back the original string. */
  lemma {:induction false} JoinSplit(s: string, c: char)
    ensures Join(Split(s, c), c) == s
  {
    if s != [] {
      JoinSplit(s[1..], c);
      JoinSplitFirst(s, c);
      assert s == [s[0]] + s[1..];
    }
  }

  /** The join of a split begins with the first character of the text. */
  lemma JoinSplitFirst(s: string, c: char)
    requires s != []
    ensures Join(Split(s, c), c) == [s[0]] + Join(Split(s[1..], c), c)
  {
    var rest := Split(s[1..], c);
    if s[0] == c {
      JoinCons([], rest, c);
    } else {
      JoinExtendFirst([s[0]], rest, c);
    }
  }

  lemma JoinCons(p: string, rest: seq<string>, c: char)
    requires |rest| >= 1
    ensures Join([p] + rest, c) == p + [c] + Join(rest, c)
  {
    var parts := [p] + rest;
    assert |parts| >= 2 && parts[0] == p && parts[1..] == rest;
  }

  /** Extending the first part extends the join by the same prefix. */
  lemma JoinExtendFirst(x: string, parts: seq<string>, c: char)
    requires |parts| >= 1
    ensures Join([x + parts[0]] + parts[1..], c) == x + Join(parts, c)
  {
    var longer := [x + parts[0]] + parts[1..];
    assert longer[1..] == parts[1..];
  }

  /** A separator-free text is a single piece. */
  lemma {:induction false} SplitFree(p: string, c: char)
    requires c !in p
    ensures Split(p, c) == [p]
  {
    if p != [] {
      SplitFree(p[1..], c);
      assert [p[0]] + p[1..] == p;
    }
  }

  /** A separator after a separator-free prefix closes the first piece. */
  lemma {:induction false} SplitAfter(p: string, c: char, rest: string)
    requires c !in p
    ensures Split(p + [c] + rest, c) == [p] + Split(rest, c)
  {
    var s := p + [c] + rest;
    if p == [] {
      assert s[1..] == rest;
    } else {
      SplitAfter(p[1..], c, rest);
      assert s[1..] == p[1..] + [c] + rest;
      assert [p[0]] + p[1..] == p;
    }
  }

  /** Splitting a join of separator-free pieces gives back the pieces. */
  lemma {:induction false} SplitJoin(parts: seq<string>, c: char)
    requires |parts| >= 1
    requires forall k :: 0 <= k < |parts| ==> c !in parts[k]
    ensures Split(Join(parts, c), c) == parts
    decreases |parts|
  {
    if |parts| > 1 {
      SplitJoin(parts[1..], c);
      SplitAfter(parts[0], c, Join(parts[1..], c));
      assert [parts[0]] + parts[1..] == parts;
    } else {
      SplitFree(parts[0], c);
    }
  }
}
