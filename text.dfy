/**
 * Character classes and the string operations of Python's `str` that the
 * pipeline uses: `split()`, `strip()`, `lower()`, `in`, `join`, `str(int)` and
 * the word runs found by `re.findall(r'\b\w+\b', ...)`.
 *
 * The Unicode classes `\s` and `\w` are represented by explicit character
 * predicates that cover the whitespace Python recognises and the Latin and
 * Cyrillic letters, digits and underscore. Case folding covers the ASCII and
 * Latin-1 capitals and the capitals U+0400..U+042F of the Cyrillic block.
 */
module Text {

  /** Whitespace as Python's `str.isspace` and `split()` see it. */
  predicate IsSpace(c: char) {
    c == ' ' || ('\t' <= c <= '\r') || ('\U{1c}' <= c <= '\U{1f}') || c == '\U{85}'
    || c == '\U{a0}' || c == '\U{1680}' || ('\U{2000}' <= c <= '\U{200a}')
    || c == '\U{2028}' || c == '\U{2029}' || c == '\U{202f}' || c == '\U{205f}' || c == '\U{3000}'
  }

  /** A character matched by `\w`: a letter, a digit or the underscore. */
  predicate IsWordChar(c: char) {
    ('a' <= c <= 'z') || ('A' <= c <= 'Z') || ('0' <= c <= '9') || c == '_'
    || ('\U{c0}' <= c <= '\U{24f}' && c != '\U{d7}' && c != '\U{f7}')
    || ('\U{400}' <= c <= '\U{481}') || ('\U{48a}' <= c <= '\U{52f}')
  }

  /** `c.lower()` for the ASCII, Latin-1 and basic Cyrillic capitals; every other character is unchanged. */
  function LowerChar(c: char): char {
    if 'A' <= c <= 'Z' then (c as int + 32) as char
    else if '\U{c0}' <= c <= '\U{de}' && c != '\U{d7}' then (c as int + 32) as char
    else if '\U{410}' <= c <= '\U{42f}' then (c as int + 32) as char
    else if '\U{400}' <= c <= '\U{40f}' then (c as int + 80) as char
    else c
  }

  /** `s.lower()`, one character at a time. */
  function Lower(s: string): (r: string)
    ensures |r| == |s|
    ensures forall i :: 0 <= i < |s| ==> r[i] == LowerChar(s[i])
    decreases |s|
  {
    if s == [] then [] else [LowerChar(s[0])] + Lower(s[1..])
  }

  /** Lower-casing twice is lower-casing once: no folded character is itself a capital. */
  lemma LowerIdempotent(s: string)
    ensures Lower(Lower(s)) == Lower(s)
  {
    forall i | 0 <= i < |s|
      ensures Lower(Lower(s))[i] == Lower(s)[i]
    {
      LowerCharIdempotent(s[i]);
    }
  }

  lemma LowerCharIdempotent(c: char)
    ensures LowerChar(LowerChar(c)) == LowerChar(c)
  {
  }

  /**
   * Lower-casing changes only letters: every character outside `\w` is kept,
   * and a character is a word character exactly when its lower-cased form is.
   */
  lemma LowerKeepsClasses(s: string)
    ensures forall i :: 0 <= i < |s| && !IsWordChar(s[i]) ==> Lower(s)[i] == s[i]
    ensures forall i :: 0 <= i < |s| ==> (IsWordChar(Lower(s)[i]) <==> IsWordChar(s[i]))
    ensures forall i :: 0 <= i < |s| ==> (IsSpace(Lower(s)[i]) <==> IsSpace(s[i]))
  {
  }

  /** `s.lstrip()`. */
  function StripStart(s: string): (r: string)
    ensures |r| <= |s| && r == s[|s| - |r|..]
    ensures r == [] || !IsSpace(r[0])
    ensures forall i :: 0 <= i < |s| - |r| ==> IsSpace(s[i])
    decreases |s|
  {
    if s != [] && IsSpace(s[0]) then StripStart(s[1..]) else s
  }

  /** `s.rstrip()`. */
  function StripEnd(s: string): (r: string)
    ensures |r| <= |s| && r == s[..|r|]
    ensures r == [] || !IsSpace(r[|r| - 1])
    ensures forall i :: |r| <= i < |s| ==> IsSpace(s[i])
    decreases |s|
  {
    if s != [] && IsSpace(s[|s| - 1]) then StripEnd(s[..|s| - 1]) else s
  }

  /** `s.strip()`: the text without leading and trailing whitespace. */
  function Strip(s: string): (r: string)
    ensures r == [] || (!IsSpace(r[0]) && !IsSpace(r[|r| - 1]))
    ensures |r| <= |s|
  {
    StripEnd(StripStart(s))
  }

  /**
   * What `strip()` removes: the result is the slice of `s` starting after the
   * leading whitespace, and everything of `s` before and after that slice is
   * whitespace. With the ends of the result not being whitespace, this
   * determines the result.
   */
  lemma StripShape(s: string)
    ensures var i, r := |s| - |StripStart(s)|, Strip(s);
      i + |r| <= |s| && r == s[i..i + |r|]
      && (forall k :: 0 <= k < i ==> IsSpace(s[k]))
      && (forall k :: i + |r| <= k < |s| ==> IsSpace(s[k]))
  {
    var t := StripStart(s);
    var r := StripEnd(t);
    var i := |s| - |t|;
    assert t == s[i..];
    assert r == s[i..i + |r|];
    forall k | i + |r| <= k < |s|
      ensures IsSpace(s[k])
    {
      assert s[k] == t[k - i];
    }
  }

  /** Length of the run of characters at the start of `s` that are not separators. */
  function RunLength(s: string, sep: char -> bool): (n: nat)
    requires s != [] && !sep(s[0])
    ensures 0 < n <= |s|
    ensures forall i :: 0 <= i < n ==> !sep(s[i])
    ensures n < |s| ==> sep(s[n])
    decreases |s|
  {
    if |s| == 1 || sep(s[1]) then 1 else 1 + RunLength(s[1..], sep)
  }

  /** The maximal runs of non-separator characters, in order. */
  function Split(s: string, sep: char -> bool): (r: seq<string>)
    ensures forall k :: 0 <= k < |r| ==> r[k] != []
    ensures forall k, i :: 0 <= k < |r| && 0 <= i < |r[k]| ==> !sep(r[k][i])
    decreases |s|
  {
    if s == [] then []
    else if sep(s[0]) then Split(s[1..], sep)
    else
      var n := RunLength(s, sep);
      [s[..n]] + Split(s[n..], sep)
  }

  /** No character of `s` is a separator. */
  predicate Free(s: string, sep: char -> bool) {
    forall i :: 0 <= i < |s| ==> !sep(s[i])
  }

  /** A non-empty separator-free word followed by nothing or a separator is one run. */
  lemma {:induction false} FreeRun(a: string, b: string, sep: char -> bool)
    requires a != [] && Free(a, sep) && (b == [] || sep(b[0]))
    ensures RunLength(a + b, sep) == |a|
    decreases |a|
  {
    if |a| > 1 {
      assert (a + b)[1..] == a[1..] + b;
      FreeRun(a[1..], b, sep);
    }
  }

  lemma SplitRun(a: string, b: string, sep: char -> bool)
    requires a != [] && Free(a, sep) && (b == [] || sep(b[0]))
    ensures Split(a + b, sep) == [a] + Split(b, sep)
  {
    FreeRun(a, b, sep);
    assert (a + b)[..|a|] == a;
    assert (a + b)[|a|..] == b;
  }

  /** A non-empty text without separators is a single run. */
  lemma SplitWhole(s: string, sep: char -> bool)
    requires s != [] && Free(s, sep)
    ensures Split(s, sep) == [s]
  {
    SplitRun(s, [], sep);
    assert s + [] == s;
  }

  /** A separator cuts the text in two: the runs on its left, then those on its right. */
  lemma {:induction false} SplitAtSeparator(a: string, c: char, b: string, sep: char -> bool)
    requires sep(c)
    ensures Split(a + [c] + b, sep) == Split(a, sep) + Split(b, sep)
    decreases |a|
  {
    var t := a + [c] + b;
    if a == [] {
      assert t[1..] == b;
    } else if sep(a[0]) {
      assert t[1..] == a[1..] + [c] + b;
      SplitAtSeparator(a[1..], c, b, sep);
    } else {
      var n := RunLength(a, sep);
      var w, rest := a[..n], a[n..];
      assert a == w + rest;
      assert Free(w, sep);
      SplitRun(w, rest, sep);
      assert t == w + (rest + [c] + b);
      SplitRun(w, rest + [c] + b, sep);
      SplitAtSeparator(rest, c, b, sep);
    }
  }

  /** Splitting a join of non-empty separator-free words at the separator gives the words back. */
  lemma {:induction false} SplitJoin(xs: seq<string>, d: char, sep: char -> bool)
    requires sep(d)
    requires forall k :: 0 <= k < |xs| ==> xs[k] != [] && Free(xs[k], sep)
    ensures Split(Join(xs, [d]), sep) == xs
    decreases |xs|
  {
    if |xs| == 1 {
      SplitRun(xs[0], [], sep);
      assert xs[0] + [] == xs[0];
    } else if |xs| > 1 {
      SplitJoin(xs[1..], d, sep);
      SplitJoinCons(xs, d, sep);
    }
  }

  lemma SplitJoinCons(xs: seq<string>, d: char, sep: char -> bool)
    requires sep(d) && |xs| > 1 && xs[0] != [] && Free(xs[0], sep)
    requires Split(Join(xs[1..], [d]), sep) == xs[1..]
    ensures Split(Join(xs, [d]), sep) == xs
  {
    var rest := Join(xs[1..], [d]);
    SplitRun(xs[0], [d] + rest, sep);
    assert Join(xs, [d]) == xs[0] + ([d] + rest);
    assert ([d] + rest)[1..] == rest;
    assert xs == [xs[0]] + xs[1..];
  }

  /** `s.split()`: the whitespace-separated words. */
  function Words(s: string): (r: seq<string>)
    ensures forall k :: 0 <= k < |r| ==> r[k] != []
    ensures forall k, i :: 0 <= k < |r| && 0 <= i < |r[k]| ==> !IsSpace(r[k][i])
  {
    Split(s, IsSpace)
  }

  /** `re.findall(r'\b\w+\b', s)`: the maximal runs of word characters. */
  function WordRuns(s: string): (r: seq<string>)
    ensures forall k :: 0 <= k < |r| ==> r[k] != []
    ensures forall k, i :: 0 <= k < |r| && 0 <= i < |r[k]| ==> IsWordChar(r[k][i])
  {
    Split(s, c => !IsWordChar(c))
  }

  /** `sep.join(ws)`. */
  function Join(ws: seq<string>, sep: string): string
    decreases |ws|
  {
    if ws == [] then ""
    else if |ws| == 1 then ws[0]
    else ws[0] + sep + Join(ws[1..], sep)
  }

  /** `needle` is a prefix of `hay`. */
  predicate StartsWith(hay: string, needle: string) {
    |needle| <= |hay| && hay[..|needle|] == needle
  }

  /** `needle` occurs in `hay` starting at index `i`. */
  predicate OccursAt(hay: string, needle: string, i: int) {
    0 <= i <= |hay| - |needle| && hay[i..i + |needle|] == needle
  }

  /** Python's `needle in hay`. */
  predicate Contains(hay: string, needle: string)
    decreases |hay|
  {
    StartsWith(hay, needle) || (hay != [] && Contains(hay[1..], needle))
  }

  /** `Contains` holds exactly when `needle` occurs at some index of `hay`. */
  lemma {:induction false} ContainsAt(hay: string, needle: string)
    ensures Contains(hay, needle) <==> exists i :: OccursAt(hay, needle, i)
    decreases |hay|
  {
    if hay != [] {
      ContainsAt(hay[1..], needle);
      if StartsWith(hay, needle) {
        assert OccursAt(hay, needle, 0);
      }
      if Contains(hay[1..], needle) {
        var i :| OccursAt(hay[1..], needle, i);
        assert hay[i + 1..i + 1 + |needle|] == hay[1..][i..i + |needle|];
        assert OccursAt(hay, needle, i + 1);
      }
      if exists i :: OccursAt(hay, needle, i) {
        var i :| OccursAt(hay, needle, i);
        if i > 0 {
          assert hay[1..][i - 1..i - 1 + |needle|] == hay[i..i + |needle|];
          assert OccursAt(hay[1..], needle, i - 1);
        } else {
          assert hay[..|needle|] == hay[i..i + |needle|];
        }
      }
    } else if needle == [] {
      assert OccursAt(hay, needle, 0);
    }
  }

  function DigitChar(d: nat): char
    requires d < 10
  {
    ('0' as int + d) as char
  }

  /** Decimal digits of a natural number, as `str(n)` prints them. */
  function NatToString(n: nat): (r: string)
    ensures r != []
    ensures forall i :: 0 <= i < |r| ==> '0' <= r[i] <= '9'
    decreases n
  {
    if n < 10 then [DigitChar(n)] else NatToString(n / 10) + [DigitChar(n % 10)]
  }

  /** `str(i)` for an integer. */
  function IntToString(i: int): (r: string)
    ensures r != []
    ensures forall k :: 0 <= k < |r| ==> r[k] == '-' || '0' <= r[k] <= '9'
  {
    if i < 0 then "-" + NatToString(-i) else NatToString(i)
  }

  /** `c * n` for a one-character string. */
  function Repeat(c: char, n: nat): (r: string)
    ensures |r| == n
    ensures forall i :: 0 <= i < n ==> r[i] == c
  {
    seq(n, _ => c)
  }
}
