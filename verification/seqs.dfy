/**
 * The list operations PHP's runtime supplies to the histogram classes:
 * `min`, `max`, `sort`, and the range filter both classes build by
 * appending to a fresh array.
 */
module Seqs {

  predicate Sorted(s: seq<real>) {
    forall i, j :: 0 <= i < j < |s| ==> s[i] <= s[j]
  }

  /** PHP's `min` of a non-empty list (on an empty one PHP throws). */
  function Min(s: seq<real>): (m: real)
    requires |s| > 0
    ensures m in s
    ensures forall i :: 0 <= i < |s| ==> m <= s[i]
  {
    if |s| == 1 then s[0]
    else
      var rest := Min(s[1..]);
      assert forall i :: 1 <= i < |s| ==> s[i] == s[1..][i - 1];
      if s[0] <= rest then s[0] else rest
  }

  /** PHP's `max` of a non-empty list (on an empty one PHP throws). */
  function Max(s: seq<real>): (m: real)
    requires |s| > 0
    ensures m in s
    ensures forall i :: 0 <= i < |s| ==> s[i] <= m
  {
    if |s| == 1 then s[0]
    else
      var rest := Max(s[1..]);
      assert forall i :: 1 <= i < |s| ==> s[i] == s[1..][i - 1];
      if rest <= s[0] then s[0] else rest
  }

  /** Insert `x` into a sorted list at its place. */
  function Insert(x: real, s: seq<real>): (r: seq<real>)
    requires Sorted(s)
    ensures Sorted(r)
    ensures multiset(r) == multiset(s) + multiset{x}
    ensures |r| == |s| + 1
  {
    if s == [] then [x]
    else if x <= s[0] then
      SortedCons(x, s);
      [x] + s
    else
      var tail := Insert(x, s[1..]);
      assert s == [s[0]] + s[1..];
      LowerBound(s[0], s[1..], x, tail);
      SortedCons(s[0], tail);
      [s[0]] + tail
  }

  /** A bound below every element of `t` and below `x` stays below every element of `t` with `x` added. */
  lemma LowerBound(a: real, t: seq<real>, x: real, r: seq<real>)
    requires Sorted([a] + t) && a <= x
    requires multiset(r) == multiset(t) + multiset{x}
    ensures forall i :: 0 <= i < |r| ==> a <= r[i]
  {
    forall i | 0 <= i < |r| ensures a <= r[i] {
      assert r[i] in multiset(r);
      if r[i] != x {
        assert r[i] in multiset(t);
        assert r[i] in t;
        var k :| 0 <= k < |t| && t[k] == r[i];
        assert ([a] + t)[0] == a && ([a] + t)[k + 1] == t[k];
      }
    }
  }

  lemma SortedCons(a: real, t: seq<real>)
    requires Sorted(t)
    requires forall i :: 0 <= i < |t| ==> a <= t[i]
    ensures Sorted([a] + t)
  {
    var r := [a] + t;
    forall i, j | 0 <= i < j < |r| ensures r[i] <= r[j] {
      if i > 0 { assert r[i] == t[i - 1] && r[j] == t[j - 1]; }
      else { assert r[j] == t[j - 1]; }
    }
  }

  /** PHP's `sort` on numbers: the ascending permutation of the list. */
  function SortAsc(s: seq<real>): (r: seq<real>)
    ensures Sorted(r)
    ensures multiset(r) == multiset(s)
    ensures |r| == |s|
  {
    if s == [] then []
    else
      assert s == [s[0]] + s[1..];
      Insert(s[0], SortAsc(s[1..]))
  }

  /**
   * The elements of `s` inside the closed range `[lo, hi]`, in their
   * order: what the 1D `_histogramData` loop appends.
   */
  function InRange(s: seq<real>, lo: real, hi: real): (r: seq<real>)
    ensures |r| <= |s|
    ensures forall i :: 0 <= i < |r| ==> lo <= r[i] <= hi
    ensures forall v :: v in r <==> v in s && lo <= v <= hi
    ensures forall v {:trigger multiset(r)[v]} ::
      multiset(r)[v] == if lo <= v <= hi then multiset(s)[v] else 0
    ensures Sorted(s) ==> Sorted(r)
  {
    if s == [] then []
    else
      var init := s[..|s| - 1];
      var last := s[|s| - 1];
      var r0 := InRange(init, lo, hi);
      assert s == init + [last];
      if last < lo || last > hi then r0
      else
        SortedSnoc(r0, init, last);
        r0 + [last]
  }

  /**
   * The filter works element by element in order: filtering a
   * concatenation filters each part and concatenates the results.
   */
  lemma {:induction false} InRangeConcat(a: seq<real>, b: seq<real>, lo: real, hi: real)
    ensures InRange(a + b, lo, hi) == InRange(a, lo, hi) + InRange(b, lo, hi)
  {
    if b != [] {
      var init := b[..|b| - 1];
      InRangeConcat(a, init, lo, hi);
      assert (a + b)[..|a + b| - 1] == a + init;
    } else {
      assert a + b == a;
    }
  }

  /** Appending to a sorted list drawn from `init` the element that follows `init` keeps it sorted. */
  lemma SortedSnoc(r: seq<real>, init: seq<real>, last: real)
    requires forall v :: v in r ==> v in init
    ensures Sorted(init + [last]) && Sorted(r) ==> Sorted(r + [last])
  {
    var s := init + [last];
    if Sorted(s) && Sorted(r) {
      forall i | 0 <= i < |r| ensures r[i] <= last {
        assert r[i] in r;
        var k :| 0 <= k < |init| && init[k] == r[i];
        assert s[k] == init[k] && s[|init|] == last;
      }
    }
  }
}
