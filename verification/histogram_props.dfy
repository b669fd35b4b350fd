/**
 * What a calculation of the one-dimensional histogram produces, stated
 * over the specification functions of `Histogram`: the shape of the bin
 * grid, how the counts of the simple and the cumulative mode relate to
 * the in-range samples, which samples are counted at all, and the
 * behaviour of the edge-keyed views.
 */
module HistogramFacts {
  import opened Values
  import opened Seqs
  import opened Grid
  import opened Claims
  import opened AbstractHistogram
  import opened Histogram

  /** The sum of the counts of a list of bins. */
  function TotalCount(bs: seq<Bin>): nat
  {
    if bs == [] then 0 else TotalCount(bs[..|bs| - 1]) + bs[|bs| - 1].count
  }

  // ---------------------------------------------------------------------
  // The grid

  /**
   * Bin `i` of a calculation spans `width` from `low + i * width`, ends
   * where bin `i + 1` starts, and has its mid point between its edges.
   */
  lemma BinAtEdges(f: Layout, d: seq<real>, cumulative: bool, i: nat)
    requires f.delta >= 0.0
    ensures BinAt(f, d, cumulative, i).low == f.low + (i as real) * f.delta
    ensures BinAt(f, d, cumulative, i).high - BinAt(f, d, cumulative, i).low == f.delta
    ensures BinAt(f, d, cumulative, i).high == BinAt(f, d, cumulative, i + 1).low
    ensures BinAt(f, d, cumulative, i).low <= BinAt(f, d, cumulative, i).mid <= BinAt(f, d, cumulative, i).high
  {
    Contiguous(f.low, f.delta, i);
  }

  /**
   * `calculate` lays out `n` contiguous bins of width `delta` from the
   * range's low bound to its high bound, in both modes alike; positions
   * from `n` on keep what an earlier calculation left there.
   */
  lemma BinnedLayout(f: Layout, d: seq<real>, cumulative: bool, prev: seq<Bin>)
    requires f.delta >= 0.0
    ensures |Binned(f, d, cumulative, prev)| == if |prev| > f.n then |prev| else f.n
    ensures forall i :: 0 <= i < f.n ==> Binned(f, d, cumulative, prev)[i] == BinAt(f, d, cumulative, i)
    ensures forall i :: 0 <= i < f.n - 1 ==>
      Binned(f, d, cumulative, prev)[i].high == Binned(f, d, cumulative, prev)[i + 1].low
    ensures f.n > 0 ==> Binned(f, d, cumulative, prev)[f.n - 1].high == f.low + (f.n as real) * f.delta
    ensures forall i :: f.n <= i < |prev| ==> Binned(f, d, cumulative, prev)[i] == prev[i]
  {
    var r := Binned(f, d, cumulative, prev);
    forall i | 0 <= i < f.n - 1 ensures r[i].high == r[i + 1].low {
      BinAtEdges(f, d, cumulative, i);
    }
    if f.n > 0 {
      BinAtEdges(f, d, cumulative, f.n - 1);
    }
  }

  /** Calculating twice over the same data and options gives the bins of calculating once. */
  lemma CalculateIdempotent(f: Layout, d: seq<real>, cumulative: bool, prev: seq<Bin>)
    ensures Binned(f, d, cumulative, Binned(f, d, cumulative, prev)) == Binned(f, d, cumulative, prev)
  {
    var once := Binned(f, d, cumulative, prev);
    var twice := Binned(f, d, cumulative, once);
    assert |twice| == |once|;
    forall i | 0 <= i < |once| ensures twice[i] == once[i] {
      if i >= f.n {
        assert twice[i] == once[f.n..][i - f.n];
      }
    }
  }

  // ---------------------------------------------------------------------
  // The counts

  /** Every sample a calculation claims goes to one of its `n` bins. */
  lemma OwnersBelowN(f: Layout, d: seq<real>)
    ensures forall k :: 0 <= k < |d| && Owners(f, d)[k].Some? ==> Owners(f, d)[k].value < f.n
  {
  }

  lemma {:induction false} SimplePrefix(f: Layout, d: seq<real>, prev: seq<Bin>, k: nat)
    requires k <= f.n
    ensures TotalCount(Binned(f, d, false, prev)[..k]) == RunningTotal(Owners(f, d), k)
  {
    if k > 0 {
      var r := Binned(f, d, false, prev);
      assert r[..k][..k - 1] == r[..k - 1];
      SimplePrefix(f, d, prev, k - 1);
    }
  }

  /**
   * In simple mode the counts of the `n` bins add up to the number of
   * in-range samples some bin claimed: no sample is counted twice.
   */
  lemma SimpleTotal(f: Layout, d: seq<real>, prev: seq<Bin>)
    ensures TotalCount(Binned(f, d, false, prev)[..f.n]) == ClaimedCount(Owners(f, d))
    ensures ClaimedCount(Owners(f, d)) <= |d|
  {
    SimplePrefix(f, d, prev, f.n);
    RunningTotalCountsClaims(Owners(f, d), f.n);
    OwnersBelowN(f, d);
    ClaimedBelowAll(Owners(f, d), f.n);
  }

  /**
   * In cumulative mode bin `i` holds the sum of the simple counts of bins
   * `0 .. i`; the counts never decrease and the last bin holds the
   * number of claimed samples.
   */
  lemma CumulativeCounts(f: Layout, d: seq<real>, prev: seq<Bin>)
    ensures forall i :: 0 <= i < f.n ==>
      Binned(f, d, true, prev)[i].count == TotalCount(Binned(f, d, false, prev)[..i + 1])
    ensures forall i, k :: 0 <= i <= k < f.n ==>
      Binned(f, d, true, prev)[i].count <= Binned(f, d, true, prev)[k].count
    ensures f.n > 0 ==> Binned(f, d, true, prev)[f.n - 1].count == ClaimedCount(Owners(f, d))
  {
    var owners := Owners(f, d);
    forall i | 0 <= i < f.n
      ensures Binned(f, d, true, prev)[i].count == TotalCount(Binned(f, d, false, prev)[..i + 1])
    {
      SimplePrefix(f, d, prev, i + 1);
    }
    forall i, k | 0 <= i <= k < f.n
      ensures Binned(f, d, true, prev)[i].count <= Binned(f, d, true, prev)[k].count
    {
      RunningTotalMonotone(owners, i + 1, k + 1);
    }
    if f.n > 0 {
      SimpleTotal(f, d, prev);
      SimplePrefix(f, d, prev, f.n);
      assert Binned(f, d, false, prev)[..f.n][..f.n] == Binned(f, d, false, prev)[..f.n];
    }
  }

  // ---------------------------------------------------------------------
  // Which samples are counted

  lemma DeltaSign(lo: real, hi: real, n: nat)
    requires n > 0 && lo <= hi
    ensures LayoutOf(lo, hi, n).delta >= 0.0
    ensures lo < hi ==> LayoutOf(lo, hi, n).delta > 0.0
  {
  }

  /**
   * With the sample-position rule of the code, an in-range sample is
   * claimed exactly when it is the first in-range sample or differs from
   * the range's low bound: every later sample equal to the low bound is
   * left out of every bin.
   */
  lemma OwnerAsWritten(lo: real, hi: real, n: nat, d: seq<real>, j: nat)
    requires n > 0 && lo <= hi && j < |d| && lo <= d[j] <= hi
    ensures Owners(LayoutOf(lo, hi, n), d)[j].Some? <==> (j == 0 || d[j] != lo)
  {
    var f := LayoutOf(lo, hi, n);
    var v := d[j];
    DeltaSign(lo, hi, n);
    assert Owners(f, d)[j] == FirstBin(f, j, v, 0);
    if j > 0 && v == lo {
      forall b | 0 <= b < n ensures !BinAccepts(f, b, j, v) {
        LowMonotone(lo, f.delta, 0, b);
      }
    } else if v == lo {
      assert BinAccepts(f, 0, j, v);
    } else {
      var b := Locate(lo, f.delta, n, v);
      assert BinAccepts(f, b, j, v);
    }
  }

  /** The number of samples after the first one that equal `lo`. */
  function LateLowEdge(d: seq<real>, lo: real): nat
  {
    if |d| <= 1 then 0
    else LateLowEdge(d[..|d| - 1], lo) + (if d[|d| - 1] == lo then 1 else 0)
  }

  /**
   * Over in-range data, the code claims all samples but the repeated
   * occurrences of the low bound.
   */
  lemma {:induction false} ClaimedAsWritten(lo: real, hi: real, n: nat, d: seq<real>)
    requires n > 0 && lo <= hi
    requires forall j :: 0 <= j < |d| ==> lo <= d[j] <= hi
    ensures ClaimedCount(Owners(LayoutOf(lo, hi, n), d)) == |d| - LateLowEdge(d, lo)
  {
    if d != [] {
      var f := LayoutOf(lo, hi, n);
      var init := d[..|d| - 1];
      assert Owners(f, init) == Owners(f, d)[..|d| - 1];
      ClaimedAsWritten(lo, hi, n, init);
      OwnerAsWritten(lo, hi, n, d, |d| - 1);
    }
  }

  /**
   * The simple-mode total of a calculation over in-range data: the
   * number of samples less the repeated occurrences of the low bound.
   */
  lemma SimpleTotalAsWritten(lo: real, hi: real, n: nat, d: seq<real>, prev: seq<Bin>)
    requires n > 0 && lo <= hi
    requires forall j :: 0 <= j < |d| ==> lo <= d[j] <= hi
    ensures TotalCount(Binned(LayoutOf(lo, hi, n), d, false, prev)[..n]) == |d| - LateLowEdge(d, lo)
  {
    SimpleTotal(LayoutOf(lo, hi, n), d, prev);
    ClaimedAsWritten(lo, hi, n, d);
  }

  /**
   * The data `[0, 0, 1]` with the range `[0, 1]` and three bins: the
   * second 0 is in range but no bin counts it, so the simple counts add
   * up to 2 where there are 3 in-range samples.
   */
  lemma RepeatedLowDropped(prev: seq<Bin>)
    ensures var f := LayoutOf(0.0, 1.0, 3);
      && Owners(f, [0.0, 0.0, 1.0])[1] == None
      && TotalCount(Binned(f, [0.0, 0.0, 1.0], false, prev)[..3]) == 2
  {
    var d := [0.0, 0.0, 1.0];
    OwnerAsWritten(0.0, 1.0, 3, d, 1);
    SimpleTotalAsWritten(0.0, 1.0, 3, d, prev);
    assert d[..2][..1] == [0.0];
    assert d[..2] == [0.0, 0.0];
  }

  /**
   * The rule the two-dimensional class applies per axis
   * (PEAR/Histogram/Histogram3D.php:145-155): the first BIN is closed on
   * its low edge. A sample goes to the first bin whose rule accepts it.
   */
  function FirstInBin(f: Layout, v: real, from: nat): (r: Option<nat>)
    decreases f.n - from
    ensures r.Some? ==> from <= r.value < f.n && InBin(f.low, f.delta, r.value, v)
    ensures r.None? ==> forall b :: from <= b < f.n ==> !InBin(f.low, f.delta, b, v)
  {
    if from >= f.n then None
    else if InBin(f.low, f.delta, from, v) then Some(from)
    else FirstInBin(f, v, from + 1)
  }

  function BinIndexOwners(f: Layout, d: seq<real>): (r: seq<Option<nat>>)
    ensures |r| == |d|
  {
    seq(|d|, j requires 0 <= j < |d| => FirstInBin(f, d[j], 0))
  }

  /** Under the bin-index rule an in-range sample is claimed by the one bin it lies in. */
  lemma BinIndexOwner(lo: real, hi: real, n: nat, v: real)
    requires n > 0 && lo <= v <= hi
    ensures FirstInBin(LayoutOf(lo, hi, n), v, 0).Some?
    ensures forall b :: 0 <= b < n ==>
      (FirstInBin(LayoutOf(lo, hi, n), v, 0) == Some(b) <==> InBin(lo, LayoutOf(lo, hi, n).delta, b, v))
  {
    var f := LayoutOf(lo, hi, n);
    DeltaSign(lo, hi, n);
    var a := InBinExists(lo, f.delta, n, v);
    var o := FirstInBin(f, v, 0);
    forall b | 0 <= b < n && InBin(lo, f.delta, b, v) ensures o == Some(b) {
      if o.value < b {
        InBinExclusive(lo, f.delta, v, o.value, b);
      } else if b < o.value {
        InBinExclusive(lo, f.delta, v, b, o.value);
      }
    }
  }

  /**
   * Under the bin-index rule every in-range sample is claimed, so the
   * claims number the samples.
   */
  lemma {:induction false} BinIndexCountsAll(lo: real, hi: real, n: nat, d: seq<real>)
    requires n > 0 && lo <= hi
    requires forall j :: 0 <= j < |d| ==> lo <= d[j] <= hi
    ensures ClaimedCount(BinIndexOwners(LayoutOf(lo, hi, n), d)) == |d|
  {
    if d != [] {
      var f := LayoutOf(lo, hi, n);
      var init := d[..|d| - 1];
      assert BinIndexOwners(f, init) == BinIndexOwners(f, d)[..|d| - 1];
      BinIndexCountsAll(lo, hi, n, init);
      BinIndexOwner(lo, hi, n, d[|d| - 1]);
    }
  }

  /** On the data of `RepeatedLowDropped`, the bin-index rule claims all three samples. */
  lemma RepeatedLowKept()
    ensures ClaimedCount(BinIndexOwners(LayoutOf(0.0, 1.0, 3), [0.0, 0.0, 1.0])) == 3
  {
    BinIndexCountsAll(0.0, 1.0, 3, [0.0, 0.0, 1.0]);
  }

  // ---------------------------------------------------------------------
  // The data seen by a calculation

  lemma {:induction false} InRangeAll(s: seq<real>, lo: real, hi: real)
    requires forall i :: 0 <= i < |s| ==> lo <= s[i] <= hi
    ensures InRange(s, lo, hi) == s
  {
    if s != [] {
      InRangeAll(s[..|s| - 1], lo, hi);
      assert s[..|s| - 1] + [s[|s| - 1]] == s;
    }
  }

  /**
   * When `setData` defaults both bounds to the data's minimum and
   * maximum, the in-range data a calculation sees is all of the stored
   * (sorted) data.
   */
  lemma DefaultRangeKeepsAll(v: seq<real>)
    requires |v| > 0
    ensures InRange(SortAsc(v), Min(v), Max(v)) == SortAsc(v)
  {
    var s := SortAsc(v);
    forall i | 0 <= i < |s| ensures Min(v) <= s[i] <= Max(v) {
      assert s[i] in multiset(s);
      assert s[i] in v;
    }
    InRangeAll(s, Min(v), Max(v));
  }

  // ---------------------------------------------------------------------
  // The edge-keyed views

  /** Setting a key absent from the array appends the entry. */
  lemma {:induction false} PutFresh(m: seq<(string, nat)>, k: string, v: nat)
    requires forall i :: 0 <= i < |m| ==> m[i].0 != k
    ensures Put(m, k, v) == m + [(k, v)]
  {
    if m != [] {
      PutFresh(m[1..], k, v);
      assert [m[0]] + (m[1..] + [(k, v)]) == m + [(k, v)];
    }
  }

  /** Setting a key already present replaces its value where it stands. */
  lemma {:induction false} PutReplaces(m: seq<(string, nat)>, k: string, v: nat, i: nat)
    requires i < |m| && m[i].0 == k
    requires forall h :: 0 <= h < i ==> m[h].0 != k
    ensures Put(m, k, v) == m[i := (k, v)]
  {
    if i > 0 {
      PutReplaces(m[1..], k, v, i - 1);
      assert [m[0]] + m[1..][i - 1 := (k, v)] == m[i := (k, v)];
    } else {
      assert [(k, v)] + m[1..] == m[0 := (k, v)];
    }
  }

  /**
   * When the edges of the bins print as distinct keys, the view holds one
   * `(key, count)` entry per bin, in bin order.
   */
  lemma {:induction false} KeyedCountsDistinct(bins: seq<Bin>, e: Edge, show: real -> string)
    requires forall a, b :: 0 <= a < b < |bins| ==> show(EdgeValue(bins[a], e)) != show(EdgeValue(bins[b], e))
    ensures |KeyedCounts(bins, e, show)| == |bins|
    ensures forall i :: 0 <= i < |bins| ==>
      KeyedCounts(bins, e, show)[i] == (show(EdgeValue(bins[i], e)), bins[i].count)
  {
    if bins != [] {
      var n := |bins| - 1;
      var init, last := bins[..n], bins[n];
      var key := show(EdgeValue(last, e));
      KeyedCountsDistinct(init, e, show);
      var m := KeyedCounts(init, e, show);
      forall i | 0 <= i < |m| ensures m[i].0 != key {
        assert m[i].0 == show(EdgeValue(bins[i], e));
      }
      PutFresh(m, key, last.count);
      assert KeyedCounts(bins, e, show) == m + [(key, last.count)];
    }
  }

  // ---------------------------------------------------------------------
  // The separated text

  /** The number of entries of a view. */
  function ViewSize(view: Bins): nat {
    match view
    case Full(bs) => |bs|
    case Keyed(es) => |es|
  }

  /** No line `toSeparated` writes for an entry holds a line break. */
  lemma RowsNoBreak(view: Bins, sep: string, i: nat)
    requires '\n' !in sep
    requires view.Keyed? ==> forall i :: 0 <= i < |view.entries| ==> '\n' !in view.entries[i].0
    requires i < |Rows(view, sep)|
    ensures '\n' !in Rows(view, sep)[i]
  {
    match view
    case Full(bs) => NatToStringNoBreak(i);
    case Keyed(es) => NatToStringNoBreak(es[i].1);
  }

  /**
   * `toSeparated` writes one line per entry of the view after the header:
   * when neither the separator nor a key holds a line break, the text has
   * exactly one more line break than the view has entries.
   */
  lemma SeparatedLineCount(view: Bins, sep: string)
    requires '\n' !in sep
    requires view.Keyed? ==> forall i :: 0 <= i < |view.entries| ==> '\n' !in view.entries[i].0
    ensures multiset(Lines([Header(sep)] + Rows(view, sep)))['\n'] == 1 + ViewSize(view)
  {
    var rows := Rows(view, sep);
    var all := [Header(sep)] + rows;
    assert |rows| == ViewSize(view);
    assert '\n' !in all[0];
    forall i | 0 <= i < |all| ensures '\n' !in all[i] {
      if i > 0 {
        assert all[i] == rows[i - 1];
        RowsNoBreak(view, sep, i - 1);
      }
    }
    LinesCount(all);
  }
}
