/** Sequence facts used by the list-building loops of the pipeline. */
module Seqs {
  import opened Common

  /** The elements of `s` that satisfy `p`, in their original order. */
  function Filter<T>(s: seq<T>, p: T -> bool): (r: seq<T>)
    ensures |r| <= |s|
    ensures forall x :: x in r ==> x in s && p(x)
    ensures forall x :: x in s && p(x) ==> x in r
    decreases |s|
  {
    if s == [] then []
    else if p(s[0]) then [s[0]] + Filter(s[1..], p)
    else Filter(s[1..], p)
  }

  lemma {:induction false} FilterAppend<T>(s: seq<T>, x: T, p: T -> bool)
    ensures Filter(s + [x], p) == Filter(s, p) + (if p(x) then [x] else [])
    decreases |s|
  {
    if s == [] {
      assert s + [x] == [x];
    } else {
      assert (s + [x])[1..] == s[1..] + [x];
      FilterAppend(s[1..], x, p);
    }
  }

  /** `a` can be obtained from `b` by deleting elements (greedy matching decides it). */
  predicate IsSubsequence<T(==)>(a: seq<T>, b: seq<T>)
    decreases |b|
  {
    if a == [] then true
    else if b == [] then false
    else if a[0] == b[0] then IsSubsequence(a[1..], b[1..])
    else IsSubsequence(a, b[1..])
  }

  lemma {:induction false} FilterIsSubsequence<T>(s: seq<T>, p: T -> bool)
    ensures IsSubsequence(Filter(s, p), s)
    decreases |s|
  {
    if s != [] {
      FilterIsSubsequence(s[1..], p);
      if p(s[0]) {
        assert Filter(s, p)[1..] == Filter(s[1..], p);
      } else if Filter(s, p) != [] {
        SubsequenceSkip(Filter(s, p), s[1..], s[0]);
      }
    }
  }

  /** Putting one more element in front of the longer sequence keeps a subsequence. */
  lemma {:induction false} SubsequenceSkip<T>(a: seq<T>, b: seq<T>, x: T)
    requires IsSubsequence(a, b)
    ensures IsSubsequence(a, [x] + b)
    decreases |b|, 1
  {
    if a != [] && a[0] == x {
      assert ([x] + b)[1..] == b;
      SubsequenceWeaken(a[1..], a, b);
    } else if a != [] {
      assert ([x] + b)[1..] == b;
    }
  }

  /** A subsequence of `b` stays one after dropping its first element. */
  lemma {:induction false} SubsequenceWeaken<T>(a': seq<T>, a: seq<T>, b: seq<T>)
    requires a != [] && a' == a[1..]
    requires IsSubsequence(a, b)
    ensures IsSubsequence(a', b)
    decreases |b|, 0
  {
    if a' != [] {
      assert b != [];
      if a[0] == b[0] {
        SubsequenceSkip(a', b[1..], b[0]);
        assert [b[0]] + b[1..] == b;
      } else {
        SubsequenceWeaken(a', a, b[1..]);
        SubsequenceSkip(a', b[1..], b[0]);
        assert [b[0]] + b[1..] == b;
      }
    }
  }

  /** Being a subsequence is transitive. */
  lemma {:induction false} SubsequenceTrans<T>(a: seq<T>, b: seq<T>, c: seq<T>)
    requires IsSubsequence(a, b) && IsSubsequence(b, c)
    ensures IsSubsequence(a, c)
    decreases |c|
  {
    if a != [] && b != [] && c != [] {
      if b[0] == c[0] {
        if a[0] == b[0] {
          SubsequenceTrans(a[1..], b[1..], c[1..]);
        } else {
          SubsequenceTrans(a, b[1..], c[1..]);
        }
      } else {
        SubsequenceTrans(a, b, c[1..]);
        if a[0] == c[0] {
          SubsequenceWeaken(a[1..], a, c[1..]);
        }
      }
    }
  }

  /** A prefix is a subsequence. */
  lemma {:induction false} PrefixIsSubsequence<T>(s: seq<T>, k: nat)
    requires k <= |s|
    ensures IsSubsequence(s[..k], s)
    decreases k
  {
    if k > 0 {
      assert s[..k][1..] == s[1..][..k - 1];
      PrefixIsSubsequence(s[1..], k - 1);
    }
  }

  /** No element occurs twice. */
  predicate Distinct<T(==)>(s: seq<T>) {
    forall i, j :: 0 <= i < j < |s| ==> s[i] != s[j]
  }

  /** Length of Python's `s[:n]` for a sequence of length `len` (negative `n` counts from the end). */
  function SliceLength(len: nat, n: int): (k: nat)
    ensures k <= len
    ensures n >= 0 ==> k == Min(n, len)
    ensures n < 0 ==> k == Max(0, len + n)
  {
    if n >= 0 then (if n <= len then n else len)
    else if len + n >= 0 then len + n
    else 0
  }

  /** Python's `s[:n]`. */
  function Prefix<T>(s: seq<T>, n: int): (r: seq<T>)
    ensures |r| == SliceLength(|s|, n)
    ensures forall i :: 0 <= i < |r| ==> r[i] == s[i]
  {
    s[..SliceLength(|s|, n)]
  }

  /** The concatenation of a list of lists, in order. */
  function Flatten<T>(ss: seq<seq<T>>): (r: seq<T>)
    decreases |ss|
  {
    if ss == [] then [] else ss[0] + Flatten(ss[1..])
  }

  lemma {:induction false} FlattenAppend<T>(ss: seq<seq<T>>, s: seq<T>)
    ensures Flatten(ss + [s]) == Flatten(ss) + s
    decreases |ss|
  {
    if ss == [] {
      assert [] + [s] == [s];
    } else {
      assert (ss + [s])[1..] == ss[1..] + [s];
      FlattenAppend(ss[1..], s);
    }
  }

  /** Every element of a flattened sequence comes from one of its parts. */
  lemma {:induction false} FlattenMember<T>(ss: seq<seq<T>>, x: T)
    requires x in Flatten(ss)
    ensures exists k :: 0 <= k < |ss| && x in ss[k]
    decreases |ss|
  {
    if x !in ss[0] {
      FlattenMember(ss[1..], x);
      var k :| 0 <= k < |ss[1..]| && x in ss[1..][k];
      assert x in ss[k + 1];
    }
  }

  /** Parts of one length `n` flatten to `n` times as many elements. */
  lemma {:induction false} FlattenUniform<T>(ss: seq<seq<T>>, n: nat)
    requires forall k :: 0 <= k < |ss| ==> |ss[k]| == n
    ensures |Flatten(ss)| == n * |ss|
    decreases |ss|
  {
    if ss != [] {
      FlattenUniform(ss[1..], n);
    }
  }

  /** The elements of a sequence, as a set. */
  function Elems<T>(s: seq<T>): set<T> {
    set x | x in s
  }

  /** Appending an element not yet present keeps a sequence free of repetitions. */
  lemma AppendFresh<T>(s: seq<T>, x: T)
    requires Distinct(s) && x !in Elems(s)
    ensures Distinct(s + [x]) && Elems(s + [x]) == Elems(s) + {x}
  {
    assert forall i :: 0 <= i < |s| ==> (s + [x])[i] == s[i];
  }

  /** An element of a subsequence is an element of the longer sequence. */
  lemma {:induction false} SubsequenceMember<T>(a: seq<T>, b: seq<T>, x: T)
    requires IsSubsequence(a, b) && x in a
    ensures x in b
    decreases |b|
  {
    if a[0] == b[0] {
      if x != a[0] {
        SubsequenceMember(a[1..], b[1..], x);
      }
    } else {
      SubsequenceMember(a, b[1..], x);
    }
  }

  /** A sequence without repetitions has as many distinct elements as entries. */
  lemma {:induction false} DistinctElems<T>(s: seq<T>)
    requires Distinct(s)
    ensures |Elems(s)| == |s|
    decreases |s|
  {
    if s != [] {
      assert Distinct(s[1..]);
      DistinctElems(s[1..]);
      assert Elems(s) == {s[0]} + Elems(s[1..]);
      assert s[0] !in Elems(s[1..]);
    }
  }
}
