/**
 * Order-preserving filtering of sequences, the `Array.prototype.filter`
 * that the store and the views use to drop entries, and what it means for
 * one sequence to keep the relative order of another.
 */
module Seqs {

  /** The elements of `s` that satisfy `keep`, in their original order. */
  function Filter<T>(s: seq<T>, keep: T -> bool): (r: seq<T>)
    ensures |r| <= |s|
    ensures forall x :: x in r ==> x in s && keep(x)
    ensures forall x :: x in s && keep(x) ==> x in r
  {
    if s == [] then []
    else (if keep(s[0]) then [s[0]] else []) + Filter(s[1..], keep)
  }

  /** `r` can be obtained from `s` by deleting elements: the order of what is left is kept. */
  ghost predicate IsSubsequence<T>(r: seq<T>, s: seq<T>)
    decreases |s|
  {
    if r == [] then true
    else if s == [] then false
    else (r[0] == s[0] && IsSubsequence(r[1..], s[1..])) || IsSubsequence(r, s[1..])
  }

  lemma {:induction false} FilterIsSubsequence<T>(s: seq<T>, keep: T -> bool)
    ensures IsSubsequence(Filter(s, keep), s)
  {
    if s != [] {
      FilterIsSubsequence(s[1..], keep);
      var rest := Filter(s[1..], keep);
      if keep(s[0]) {
        assert Filter(s, keep) == [s[0]] + rest;
        assert ([s[0]] + rest)[1..] == rest;
      } else {
        assert Filter(s, keep) == rest;
        if rest != [] {
          assert IsSubsequence(rest, s[1..]);
        }
      }
    }
  }

  /** Filtering distributes over concatenation, which is what "the relative order is kept" means. */
  lemma {:induction false} FilterAppend<T>(a: seq<T>, b: seq<T>, keep: T -> bool)
    ensures Filter(a + b, keep) == Filter(a, keep) + Filter(b, keep)
  {
    if a == [] {
      assert a + b == b;
    } else {
      assert (a + b)[0] == a[0];
      assert (a + b)[1..] == a[1..] + b;
      FilterAppend(a[1..], b, keep);
    }
  }

  /** A filter that keeps every element is the identity. */
  lemma {:induction false} FilterKeepAll<T>(s: seq<T>, keep: T -> bool)
    requires forall x :: x in s ==> keep(x)
    ensures Filter(s, keep) == s
  {
    if s != [] {
      FilterKeepAll(s[1..], keep);
      assert [s[0]] + s[1..] == s;
    }
  }

  /** The first `min(n, |s|)` elements of `s`, as `slice(0, n)` gives them. */
  function Take<T>(s: seq<T>, n: nat): (r: seq<T>)
    ensures |r| == (if n < |s| then n else |s|)
    ensures forall i :: 0 <= i < |r| ==> r[i] == s[i]
  {
    if n < |s| then s[..n] else s
  }
}
