/** Sequence operations the Python code performs with comprehensions, slices and counters. */
module Seqs {

  /** `[x for x in s if keep(x)]`: the accepted elements of `s`, in their original order. */
  function Filter<T>(s: seq<T>, keep: T -> bool): (r: seq<T>)
    ensures |r| <= |s|
    decreases |s|
  {
    if s == [] then []
    else Filter(s[..|s| - 1], keep) + (if keep(s[|s| - 1]) then [s[|s| - 1]] else [])
  }

  /** The positions of `s` that `Filter` keeps, in increasing order. */
  ghost function KeptIndices<T>(s: seq<T>, keep: T -> bool): seq<int>
    decreases |s|
  {
    if s == [] then []
    else KeptIndices(s[..|s| - 1], keep) + (if keep(s[|s| - 1]) then [|s| - 1] else [])
  }

  /** Filtering one more element extends the previous result by that element when it is kept. */
  lemma FilterSnoc<T>(s: seq<T>, x: T, keep: T -> bool)
    ensures Filter(s + [x], keep) == Filter(s, keep) + (if keep(x) then [x] else [])
  {
    assert (s + [x])[..|s|] == s;
  }

  /** Every element of the filter occurs in `s` and is accepted. */
  lemma {:induction false} FilterElements<T>(s: seq<T>, keep: T -> bool)
    ensures forall k :: 0 <= k < |Filter(s, keep)| ==> Filter(s, keep)[k] in s && keep(Filter(s, keep)[k])
    decreases |s|
  {
    if s != [] {
      var init := s[..|s| - 1];
      FilterElements(init, keep);
      assert forall x :: x in init ==> x in s;
    }
  }

  /** An element survives the filter exactly when it occurs in `s` and is accepted. */
  lemma {:induction false} FilterMembership<T>(s: seq<T>, keep: T -> bool, x: T)
    ensures x in Filter(s, keep) <==> x in s && keep(x)
    decreases |s|
  {
    if s != [] {
      var init := s[..|s| - 1];
      FilterMembership(init, keep, x);
      assert s == init + [s[|s| - 1]];
    }
  }

  /**
   * `Filter` is the order-preserving subsequence of exactly the accepted elements: its k-th
   * element is `s[KeptIndices(s)[k]]`, the positions increase strictly, and every accepted
   * position of `s` is among them.
   */
  lemma {:induction false} FilterIsSubsequence<T>(s: seq<T>, keep: T -> bool)
    ensures |KeptIndices(s, keep)| == |Filter(s, keep)|
    ensures forall k :: 0 <= k < |Filter(s, keep)| ==>
      0 <= KeptIndices(s, keep)[k] < |s| && Filter(s, keep)[k] == s[KeptIndices(s, keep)[k]]
    ensures forall k, l :: 0 <= k < l < |Filter(s, keep)| ==> KeptIndices(s, keep)[k] < KeptIndices(s, keep)[l]
    ensures forall i :: 0 <= i < |s| && keep(s[i]) ==> i in KeptIndices(s, keep)
    decreases |s|
  {
    if s != [] {
      var init := s[..|s| - 1];
      var last := s[|s| - 1];
      FilterIsSubsequence(init, keep);
      var f0, i0 := Filter(init, keep), KeptIndices(init, keep);
      assert forall i :: 0 <= i < |init| ==> init[i] == s[i];
      assert forall k :: 0 <= k < |i0| ==> 0 <= i0[k] < |init|;
      if keep(last) {
        assert Filter(s, keep) == f0 + [last];
        assert KeptIndices(s, keep) == i0 + [|s| - 1];
      } else {
        assert Filter(s, keep) == f0;
        assert KeptIndices(s, keep) == i0;
      }
    }
  }

  /** Filtering a prefix of `s` gives a prefix of filtering `s`. */
  lemma {:induction false} FilterPrefix<T>(s: seq<T>, j: int, keep: T -> bool)
    requires 0 <= j <= |s|
    ensures Filter(s[..j], keep) <= Filter(s, keep)
    decreases |s| - j
  {
    if j < |s| {
      FilterPrefix(s, j + 1, keep);
      FilterSnoc(s[..j], s[j], keep);
      assert s[..j] + [s[j]] == s[..j + 1];
    } else {
      assert s[..j] == s;
    }
  }

  /** When every element is accepted nothing is removed. */
  lemma {:induction false} FilterKeepsAll<T>(s: seq<T>, keep: T -> bool)
    requires forall i :: 0 <= i < |s| ==> keep(s[i])
    ensures Filter(s, keep) == s
    decreases |s|
  {
    if s != [] {
      FilterKeepsAll(s[..|s| - 1], keep);
      assert s[..|s| - 1] + [s[|s| - 1]] == s;
    }
  }

  /** When at most one position of `s` is rejected, the filter loses at most one element. */
  lemma {:induction false} FilterLosesAtMostOne<T>(s: seq<T>, keep: T -> bool)
    requires forall i, j :: 0 <= i < j < |s| ==> keep(s[i]) || keep(s[j])
    ensures |Filter(s, keep)| >= |s| - 1
    decreases |s|
  {
    if s != [] {
      var init := s[..|s| - 1];
      if keep(s[|s| - 1]) {
        FilterLosesAtMostOne(init, keep);
      } else {
        FilterKeepsAll(init, keep);
      }
    }
  }

  /** The first `n` elements, or all of them when there are fewer; nothing when `n` is negative. */
  function Prefix<T>(s: seq<T>, n: int): (r: seq<T>)
    ensures r <= s
    ensures |r| == if n <= 0 then 0 else if n < |s| then n else |s|
  {
    if n <= 0 then [] else if n < |s| then s[..n] else s
  }

  /** Python's slice `s[:n]`, where a negative `n` counts from the end. */
  function PySliceTo<T>(s: seq<T>, n: int): (r: seq<T>)
    ensures r <= s
    ensures 0 <= n ==> |r| == if n < |s| then n else |s|
    ensures n < 0 ==> |r| == if |s| + n < 0 then 0 else |s| + n
  {
    if n >= 0 then (if n < |s| then s[..n] else s)
    else if |s| + n < 0 then [] else s[..|s| + n]
  }
}
