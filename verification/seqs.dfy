/** Facts about sequences shared by the filters and slot layouts of the
    plugin: order-preserving selection and lists without repeats. */
module Seqs {

  function Min(a: int, b: int): int {
    if a <= b then a else b
  }

  /** Every element one more. */
  function Shift(p: seq<int>): (r: seq<int>)
    ensures |r| == |p|
    ensures forall k :: 0 <= k < |p| ==> r[k] == p[k] + 1
  {
    seq(|p|, k requires 0 <= k < |p| => p[k] + 1)
  }

  /** No element listed twice. */
  predicate Distinct<T(==)>(s: seq<T>) {
    forall i, j :: 0 <= i < j < |s| ==> s[i] != s[j]
  }

  /** Each element below the next. */
  predicate Increasing(s: seq<int>) {
    forall k :: 0 <= k < |s| - 1 ==> s[k] < s[k + 1]
  }

  lemma {:induction false} IncreasingBetween(s: seq<int>, i: int, j: int)
    requires Increasing(s) && 0 <= i < j < |s|
    ensures s[i] < s[j]
    decreases j - i
  {
    if i + 1 < j {
      IncreasingBetween(s, i, j - 1);
    }
  }

  /** An increasing list has no repeats, and its first and last elements
      bound the others. */
  lemma IncreasingDistinct(s: seq<int>)
    requires Increasing(s)
    ensures Distinct(s)
    ensures forall k :: 0 <= k < |s| ==> s[0] <= s[k] <= s[|s| - 1]
  {
    forall i, j | 0 <= i < j < |s|
      ensures s[i] < s[j]
    {
      IncreasingBetween(s, i, j);
    }
  }

  /** `r` is picked out of `s` at the strictly increasing positions `idx`:
      `r` is a subsequence of `s`, in the order of `s`. */
  predicate Embeds<T(==)>(r: seq<T>, s: seq<T>, idx: seq<int>) {
    |idx| == |r|
    && (forall k :: 0 <= k < |idx| ==> 0 <= idx[k] < |s| && r[k] == s[idx[k]])
    && (forall k, l :: 0 <= k < l < |idx| ==> idx[k] < idx[l])
  }

  /** A longer source still embeds the same picks. */
  lemma EmbedsExtend<T>(r: seq<T>, s: seq<T>, idx: seq<int>, x: T)
    requires Embeds(r, s, idx)
    ensures Embeds(r, s + [x], idx)
  {
    forall k | 0 <= k < |idx|
      ensures (s + [x])[idx[k]] == s[idx[k]]
    {
    }
  }

  /** Picking the new last element of the source extends the picks. */
  lemma EmbedsSnoc<T>(r: seq<T>, s: seq<T>, idx: seq<int>, x: T)
    requires Embeds(r, s, idx)
    ensures Embeds(r + [x], s + [x], idx + [|s|])
  {
    EmbedsExtend(r, s, idx, x);
  }

  /** A list without repeats that holds exactly the elements of a set is as
      long as the set is large. */
  lemma {:induction false} DistinctCount<T>(xs: seq<T>, s: set<T>)
    requires Distinct(xs)
    requires forall x :: x in xs <==> x in s
    ensures |xs| == |s|
  {
    if xs != [] {
      var last := xs[|xs| - 1];
      var init := xs[..|xs| - 1];
      assert xs == init + [last];
      assert last !in init;
      DistinctCount(init, s - {last});
    } else {
      assert s == {};
    }
  }
}
