/**
 * Properties of the two-dimensional histogram, stated over the
 * specification functions of `Histogram3D`: the row-major layout of the
 * cells, the fact that each pair inside the box is claimed by exactly one
 * cell, the total of the simple counts, what the cumulative counts hold,
 * and the agreement of the early return of `_histogramData` with its
 * filter.
 */
module Histogram3DFacts {
  import opened Values
  import opened Seqs
  import opened Grid
  import opened Claims
  import opened Histogram3D

  /** The sum of the counts of a list of cells. */
  function CellTotal(cs: seq<Cell>): nat
  {
    if cs == [] then 0 else CellTotal(cs[..|cs| - 1]) + cs[|cs| - 1].count
  }

  // ---------------------------------------------------------------------
  // Layout of the cells

  /**
   * Bin `b` of an axis starts `b` widths above the origin, is one width
   * wide, has its midpoint halfway, and ends where bin `b + 1` starts.
   */
  lemma AxisBinShape(g: AxisGrid, b: nat)
    ensures var a := AxisBinOf(g, b);
      && a.low == g.low + (b as real) * g.delta && a.high == a.low + g.delta
      && a.mid == (a.low + a.high) / 2.0
      && a.high == AxisBinOf(g, b + 1).low
  {
    Contiguous(g.low, g.delta, b);
  }

  /**
   * After a calculation there are `NX * NY` cells, and cell `(i, j)` sits
   * at position `i * NY + j` with the bin numbers `i` and `j` and the
   * edges of bin `i` of X and bin `j` of Y.
   */
  lemma CellsLayout(gx: AxisGrid, gy: AxisGrid, p: Pairs, cumulative: bool, i: nat, j: nat)
    requires |p.xs| == |p.ys| && i < gx.n && j < gy.n
    ensures |Cells(gx, gy, p, cumulative)| == gx.n * gy.n
    ensures i * gy.n + j < gx.n * gy.n
    ensures var cell := Cells(gx, gy, p, cumulative)[i * gy.n + j];
      && cell.xbin == i && cell.ybin == j && cell.x == AxisBinOf(gx, i) && cell.y == AxisBinOf(gy, j)
  {
    var c := i * gy.n + j;
    FlatIndex(i, j, gy.n);
    FlatBelow(i, j, gx.n, gy.n);
    assert Cells(gx, gy, p, cumulative)[c] == CellAt(gx, gy, p, cumulative, c);
  }

  // ---------------------------------------------------------------------
  // Every pair in the box is claimed exactly once

  lemma DivMod(a: nat, n: nat)
    requires n > 0
    ensures a == (a / n) * n + a % n
  {
  }

  /** A value lies in at most one bin of an axis. */
  lemma InBinUnique(origin: real, delta: real, v: real, a: nat, b: nat)
    requires delta >= 0.0
    requires InBin(origin, delta, a, v) && InBin(origin, delta, b, v)
    ensures a == b
  {
    if a < b {
      InBinExclusive(origin, delta, v, a, b);
    } else if b < a {
      InBinExclusive(origin, delta, v, b, a);
    }
  }

  /**
   * The axis `calculate` lays out for a positive bin count and a
   * non-empty range has at least one bin, non-negative width, and
   * reaches the high bound.
   */
  lemma GridCovers(lo: real, hi: real, nb: real)
    requires nb > 0.0 && lo <= hi
    ensures var g := GridOf(lo, hi, nb);
      g.n > 0 && g.delta >= 0.0 && hi <= g.low + (g.n as real) * g.delta
  {
    var g := GridOf(lo, hi, nb);
    ItersCover(nb);
    if g.delta < 0.0 {
      ScaleMonotone(g.delta, 0.0, nb);
    }
    if g.delta > 0.0 && nb < g.n as real {
      ScaleMonotone(nb, g.n as real, g.delta);
      assert nb * g.delta == hi - lo;
    }
  }

  /** A pair within the reach of both axes is claimed by some cell. */
  lemma CellOwnerExists(gx: AxisGrid, gy: AxisGrid, x: real, y: real)
    requires gx.n > 0 && gy.n > 0 && gx.delta >= 0.0 && gy.delta >= 0.0
    requires gx.low <= x <= gx.low + (gx.n as real) * gx.delta
    requires gy.low <= y <= gy.low + (gy.n as real) * gy.delta
    ensures FirstCell(gx, gy, x, y, 0).Some?
  {
    var xb := InBinExists(gx.low, gx.delta, gx.n, x);
    var yb := InBinExists(gy.low, gy.delta, gy.n, y);
    FlatIndex(xb, yb, gy.n);
    FlatBelow(xb, yb, gx.n, gy.n);
    assert AcceptsAt(gx, gy, xb * gy.n + yb, x, y);
  }

  /** A position whose cell accepts the pair is the position of the cell `(i, j)` exactly when that cell accepts it. */
  lemma AcceptingCell(gx: AxisGrid, gy: AxisGrid, x: real, y: real, e: nat, i: nat, j: nat)
    requires gx.delta >= 0.0 && gy.delta >= 0.0 && j < gy.n
    requires AcceptsAt(gx, gy, e, x, y)
    ensures e == i * gy.n + j <==> CellAccepts(gx, gy, i, j, x, y)
  {
    var ei, ej := e / gy.n, e % gy.n;
    DivMod(e, gy.n);
    if CellAccepts(gx, gy, i, j, x, y) {
      InBinUnique(gx.low, gx.delta, x, ei, i);
      InBinUnique(gy.low, gy.delta, y, ej, j);
    }
    if e == i * gy.n + j {
      FlatIndex(i, j, gy.n);
    }
  }

  /**
   * A pair within the reach of both axes is claimed by a cell, and the
   * claiming cell is the one cell whose two bins accept the pair.
   */
  lemma CellOwnerUnique(gx: AxisGrid, gy: AxisGrid, x: real, y: real)
    requires gx.n > 0 && gy.n > 0 && gx.delta >= 0.0 && gy.delta >= 0.0
    requires gx.low <= x <= gx.low + (gx.n as real) * gx.delta
    requires gy.low <= y <= gy.low + (gy.n as real) * gy.delta
    ensures FirstCell(gx, gy, x, y, 0).Some?
    ensures forall i: nat, j: nat :: i < gx.n && j < gy.n ==>
      (FirstCell(gx, gy, x, y, 0) == Some(i * gy.n + j) <==> CellAccepts(gx, gy, i, j, x, y))
  {
    CellOwnerExists(gx, gy, x, y);
    var o := FirstCell(gx, gy, x, y, 0);
    forall i: nat, j: nat | i < gx.n && j < gy.n
      ensures o == Some(i * gy.n + j) <==> CellAccepts(gx, gy, i, j, x, y)
    {
      AcceptingCell(gx, gy, x, y, o.value, i, j);
    }
  }

  /** Pair `k` lies within the reach of both axes. */
  predicate Reached(gx: AxisGrid, gy: AxisGrid, p: Pairs, k: nat)
    requires k < |p.xs| && k < |p.ys|
  {
    && gx.low <= p.xs[k] <= gx.low + (gx.n as real) * gx.delta
    && gy.low <= p.ys[k] <= gy.low + (gy.n as real) * gy.delta
  }

  /** When every pair is within reach, every pair is claimed. */
  lemma ClaimsAll(gx: AxisGrid, gy: AxisGrid, p: Pairs)
    requires |p.xs| == |p.ys|
    requires gx.n > 0 && gy.n > 0 && gx.delta >= 0.0 && gy.delta >= 0.0
    requires forall k :: 0 <= k < |p.xs| ==> Reached(gx, gy, p, k)
    ensures ClaimedCount(CellOwners(gx, gy, p)) == |p.xs|
  {
    var owners := CellOwners(gx, gy, p);
    forall k | 0 <= k < |owners| ensures owners[k].Some? {
      assert Reached(gx, gy, p, k);
      CellOwnerExists(gx, gy, p.xs[k], p.ys[k]);
    }
    ClaimedCountAll(owners);
  }

  // ---------------------------------------------------------------------
  // Totals of the counts

  /** The simple counts of the first `c` cells add up to the running total before cell `c`. */
  lemma {:induction false} CellPrefix(gx: AxisGrid, gy: AxisGrid, p: Pairs, c: nat)
    requires |p.xs| == |p.ys| && gy.n > 0 && c <= gx.n * gy.n
    ensures CellTotal(Cells(gx, gy, p, false)[..c]) == RunningTotal(CellOwners(gx, gy, p), c)
  {
    if c > 0 {
      var cs := Cells(gx, gy, p, false);
      assert cs[..c][..c - 1] == cs[..c - 1];
      CellPrefix(gx, gy, p, c - 1);
    }
  }

  /** The simple counts of all cells add up to the number of claimed pairs. */
  lemma SimpleTotal(gx: AxisGrid, gy: AxisGrid, p: Pairs)
    requires |p.xs| == |p.ys|
    ensures CellTotal(Cells(gx, gy, p, false)) == ClaimedCount(CellOwners(gx, gy, p))
  {
    var owners := CellOwners(gx, gy, p);
    var n := gx.n * gy.n;
    assert forall k :: 0 <= k < |owners| && owners[k].Some? ==> owners[k].value < n;
    ClaimedBelowAll(owners, n);
    RunningTotalCountsClaims(owners, n);
    if gy.n > 0 {
      var cs := Cells(gx, gy, p, false);
      CellPrefix(gx, gy, p, n);
      assert cs[..n] == cs;
    }
  }

  /** The pairs `_histogramData` hands to `calculate` all lie in the box. */
  lemma InRangePairsInBox(p: Pairs, lo: XY<real>, hi: XY<real>)
    requires |p.xs| == |p.ys| && p.xs != []
    ensures var q := InRangePairs(p, lo, hi);
      forall k :: 0 <= k < |q.xs| ==> InBox(lo, hi, q.xs[k], q.ys[k])
  {
    if Spans(p, lo, hi) {
      forall k | 0 <= k < |p.xs| ensures InBox(lo, hi, p.xs[k], p.ys[k]) {
        assert Min(p.xs) <= p.xs[k] <= Max(p.xs);
        assert Min(p.ys) <= p.ys[k] <= Max(p.ys);
      }
    }
  }

  /**
   * In simple mode, with positive bin counts and a non-empty box, the
   * counts of a calculation add up to the number of pairs inside the box:
   * none is lost and none is counted twice.
   */
  lemma CalculatedTotal(p: Pairs, lo: XY<real>, hi: XY<real>, nb: XY<real>)
    requires |p.xs| == |p.ys| && p.xs != []
    requires nb.x > 0.0 && nb.y > 0.0 && lo.x <= hi.x && lo.y <= hi.y
    ensures var q := InRangePairs(p, lo, hi);
      CellTotal(Cells(GridOf(lo.x, hi.x, nb.x), GridOf(lo.y, hi.y, nb.y), q, false)) == |q.xs|
  {
    var q := InRangePairs(p, lo, hi);
    var gx, gy := GridOf(lo.x, hi.x, nb.x), GridOf(lo.y, hi.y, nb.y);
    InRangePairsInBox(p, lo, hi);
    BoxReached(q, lo, hi, nb);
    ClaimsAll(gx, gy, q);
    SimpleTotal(gx, gy, q);
  }

  /** Pairs inside the box are within reach of the grids `calculate` lays out over it. */
  lemma BoxReached(q: Pairs, lo: XY<real>, hi: XY<real>, nb: XY<real>)
    requires |q.xs| == |q.ys|
    requires nb.x > 0.0 && nb.y > 0.0 && lo.x <= hi.x && lo.y <= hi.y
    requires forall k :: 0 <= k < |q.xs| ==> InBox(lo, hi, q.xs[k], q.ys[k])
    ensures var gx, gy := GridOf(lo.x, hi.x, nb.x), GridOf(lo.y, hi.y, nb.y);
      && gx.n > 0 && gy.n > 0 && gx.delta >= 0.0 && gy.delta >= 0.0
      && forall k :: 0 <= k < |q.xs| ==> Reached(gx, gy, q, k)
  {
    var gx, gy := GridOf(lo.x, hi.x, nb.x), GridOf(lo.y, hi.y, nb.y);
    GridCovers(lo.x, hi.x, nb.x);
    GridCovers(lo.y, hi.y, nb.y);
    forall k | 0 <= k < |q.xs| ensures Reached(gx, gy, q, k) {
      assert InBox(lo, hi, q.xs[k], q.ys[k]);
    }
  }

  // ---------------------------------------------------------------------
  // Cumulative counts

  /**
   * The cumulative count as written agrees with the running total
   * through the cell exactly when the cell holds one pair, or when no
   * pair has been claimed up to and including it.
   */
  lemma CumulativeAsWritten(owners: seq<Option<nat>>, c: nat)
    ensures CumulativeCount(owners, c) == RunningTotal(owners, c + 1) <==>
      CountOf(owners, c) == 1 || RunningTotal(owners, c + 1) == 0
  {
  }

  /**
   * The cumulative count the one-dimensional class stores: the number of
   * claims through the cell.
   */
  function CorrectedCount(owners: seq<Option<nat>>, c: nat): (r: nat)
    ensures r == RunningTotal(owners, c) + CountOf(owners, c)
    ensures CountOf(owners, c) <= r
  {
    RunningTotal(owners, c + 1)
  }

  /**
   * The corrected cumulative counts are the running sums of the simple
   * counts, never decrease from one cell to the next, and end at the
   * number of claimed pairs.
   */
  lemma CumulativeIntended(gx: AxisGrid, gy: AxisGrid, p: Pairs)
    requires |p.xs| == |p.ys| && gx.n > 0 && gy.n > 0
    ensures var owners := CellOwners(gx, gy, p);
      forall c :: 0 <= c < gx.n * gy.n ==>
        CorrectedCount(owners, c) == CellTotal(Cells(gx, gy, p, false)[..c + 1])
    ensures var owners := CellOwners(gx, gy, p);
      forall a, b :: 0 <= a <= b < gx.n * gy.n ==> CorrectedCount(owners, a) <= CorrectedCount(owners, b)
    ensures CorrectedCount(CellOwners(gx, gy, p), gx.n * gy.n - 1) == ClaimedCount(CellOwners(gx, gy, p))
  {
    var owners := CellOwners(gx, gy, p);
    var n := gx.n * gy.n;
    MulBounds(gx.n, gy.n);
    forall c | 0 <= c < n
      ensures CorrectedCount(owners, c) == CellTotal(Cells(gx, gy, p, false)[..c + 1])
    {
      CellPrefix(gx, gy, p, c + 1);
    }
    forall a, b | 0 <= a <= b < n ensures CorrectedCount(owners, a) <= CorrectedCount(owners, b) {
      RunningTotalMonotone(owners, a + 1, b + 1);
    }
    assert forall k :: 0 <= k < |owners| && owners[k].Some? ==> owners[k].value < n;
    ClaimedBelowAll(owners, n);
    RunningTotalCountsClaims(owners, n);
  }

  /** Claims of the diagonal example below: two pairs in cell 0, two in cell 3. */
  lemma DiagonalOwners()
    ensures var g := GridOf(0.0, 3.0, 2.0);
      CellOwners(g, g, Pairs([0.0, 1.0, 2.0, 3.0], [0.0, 1.0, 2.0, 3.0])) == [Some(0), Some(0), Some(3), Some(3)]
  {
    assert GridOf(0.0, 3.0, 2.0) == AxisGrid(0.0, 1.5, 2);
    assert FirstCell(AxisGrid(0.0, 1.5, 2), AxisGrid(0.0, 1.5, 2), 0.0, 0.0, 0) == Some(0);
    assert FirstCell(AxisGrid(0.0, 1.5, 2), AxisGrid(0.0, 1.5, 2), 1.0, 1.0, 0) == Some(0);
    assert FirstCell(AxisGrid(0.0, 1.5, 2), AxisGrid(0.0, 1.5, 2), 2.0, 2.0, 0) == Some(3);
    assert FirstCell(AxisGrid(0.0, 1.5, 2), AxisGrid(0.0, 1.5, 2), 3.0, 3.0, 0) == Some(3);
  }

  /** Frequencies and running totals of those claims. */
  lemma DiagonalTotals(w: seq<Option<nat>>)
    requires w == [Some(0), Some(0), Some(3), Some(3)]
    ensures CountOf(w, 0) == 2 && CountOf(w, 1) == 0 && CountOf(w, 2) == 0 && CountOf(w, 3) == 2
    ensures RunningTotal(w, 1) == 2 && RunningTotal(w, 2) == 2 && RunningTotal(w, 3) == 2
    ensures RunningTotal(w, 4) == 4
  {
    var w1, w2, w3 := w[..1], w[..2], w[..3];
    assert w[..3] == w3 && w3[..2] == w2 && w2[..1] == w1 && w1[..0] == [];
    assert forall c :: CountOf(w1, c) == (if c == 0 then 1 else 0);
    assert forall c :: CountOf(w2, c) == (if c == 0 then 2 else 0);
    assert forall c :: CountOf(w3, c) == (if c == 0 then 2 else if c == 3 then 1 else 0);
    assert forall c :: CountOf(w, c) == (if c == 0 || c == 3 then 2 else 0);
  }

  /**
   * Four pairs on the diagonal, `(0,0)`, `(1,1)`, `(2,2)` and `(3,3)`,
   * over a 2 x 2 grid spanning `[0, 3]` on both axes. The simple counts
   * are 2, 0, 0, 2; the cumulative counts as written are 3, 0, 0, 5, so
   * they exceed the number of pairs and drop back to zero; the corrected
   * counts are 2, 2, 2, 4.
   */
  lemma DiagonalCounts()
    ensures var g := GridOf(0.0, 3.0, 2.0);
      var p := Pairs([0.0, 1.0, 2.0, 3.0], [0.0, 1.0, 2.0, 3.0]);
      var simple, cumulative := Cells(g, g, p, false), Cells(g, g, p, true);
      && |simple| == 4 && |cumulative| == 4
      && simple[0].count == 2 && simple[1].count == 0 && simple[2].count == 0 && simple[3].count == 2
      && cumulative[0].count == 3 && cumulative[1].count == 0
      && cumulative[2].count == 0 && cumulative[3].count == 5
  {
    var g := GridOf(0.0, 3.0, 2.0);
    assert g.n == 2;
    var p := Pairs([0.0, 1.0, 2.0, 3.0], [0.0, 1.0, 2.0, 3.0]);
    DiagonalOwners();
    DiagonalTotals(CellOwners(g, g, p));
    var simple, cumulative := Cells(g, g, p, false), Cells(g, g, p, true);
    assert simple[0] == CellAt(g, g, p, false, 0) && simple[1] == CellAt(g, g, p, false, 1);
    assert simple[2] == CellAt(g, g, p, false, 2) && simple[3] == CellAt(g, g, p, false, 3);
    assert cumulative[0] == CellAt(g, g, p, true, 0) && cumulative[1] == CellAt(g, g, p, true, 1);
    assert cumulative[2] == CellAt(g, g, p, true, 2) && cumulative[3] == CellAt(g, g, p, true, 3);
  }

  /** The corrected counts for the same pairs: 2, 2, 2, 4, ending at the number of pairs. */
  lemma DiagonalCorrected()
    ensures var g := GridOf(0.0, 3.0, 2.0);
      var owners := CellOwners(g, g, Pairs([0.0, 1.0, 2.0, 3.0], [0.0, 1.0, 2.0, 3.0]));
      && CorrectedCount(owners, 0) == 2 && CorrectedCount(owners, 1) == 2
      && CorrectedCount(owners, 2) == 2 && CorrectedCount(owners, 3) == 4
  {
    var g := GridOf(0.0, 3.0, 2.0);
    DiagonalOwners();
    DiagonalTotals(CellOwners(g, g, Pairs([0.0, 1.0, 2.0, 3.0], [0.0, 1.0, 2.0, 3.0])));
  }

  // ---------------------------------------------------------------------
  // The early return of `_histogramData`

  /** Filtering pairs that all lie in the box keeps them all, in order. */
  lemma {:induction false} FilterAllInBox(p: Pairs, lo: XY<real>, hi: XY<real>)
    requires |p.xs| == |p.ys|
    requires forall k :: 0 <= k < |p.xs| ==> InBox(lo, hi, p.xs[k], p.ys[k])
    ensures FilterPairs(p, lo, hi) == p
    decreases |p.xs|
  {
    if p.xs != [] {
      var n := |p.xs| - 1;
      var init := Pairs(p.xs[..n], p.ys[..n]);
      assert forall k :: 0 <= k < n ==> InBox(lo, hi, init.xs[k], init.ys[k]) by {
        forall k | 0 <= k < n ensures InBox(lo, hi, init.xs[k], init.ys[k]) {
          assert InBox(lo, hi, p.xs[k], p.ys[k]);
        }
      }
      FilterAllInBox(init, lo, hi);
      assert InBox(lo, hi, p.xs[n], p.ys[n]);
      assert p == Pairs(init.xs + [p.xs[n]], init.ys + [p.ys[n]]);
      FilterSnoc(init, p.xs[n], p.ys[n], lo, hi);
    }
  }

  /**
   * Returning the data unfiltered when the box is exactly its extent
   * gives what the filter would have given: the shortcut never changes
   * the result.
   */
  lemma EarlyReturnAgrees(p: Pairs, lo: XY<real>, hi: XY<real>)
    requires |p.xs| == |p.ys| && p.xs != []
    ensures InRangePairs(p, lo, hi) == FilterPairs(p, lo, hi)
  {
    if Spans(p, lo, hi) {
      InRangePairsInBox(p, lo, hi);
      FilterAllInBox(p, lo, hi);
    }
  }

  // ---------------------------------------------------------------------
  // The separated text

  /** The number of entries of a view. */
  function ViewSize(view: Bins): nat {
    match view
    case Full(cs) => |cs|
    case Filtered(es) => |es|
  }

  /** No line `toSeparated` writes for an entry holds a line break. */
  lemma RowsNoBreak(view: Bins, sep: string, show: real -> string, c: nat)
    requires '\n' !in sep
    requires forall v :: '\n' !in show(v)
    requires c < |Rows(view, sep, show)|
    ensures '\n' !in Rows(view, sep, show)[c]
  {
    match view
    case Full(cs) =>
      NatToStringNoBreak(cs[c].count);
      NatToStringNoBreak(cs[c].xbin);
      NatToStringNoBreak(cs[c].ybin);
    case Filtered(es) => NatToStringNoBreak(es[c].count);
  }

  /**
   * `toSeparated` writes one line per entry of the view after the header:
   * when neither the separator nor a rendered number holds a line break,
   * the text has exactly one more line break than the view has entries.
   */
  lemma SeparatedLineCount(view: Bins, sep: string, show: real -> string)
    requires '\n' !in sep
    requires forall v :: '\n' !in show(v)
    ensures multiset(Lines([Header(sep)] + Rows(view, sep, show)))['\n'] == 1 + ViewSize(view)
  {
    var rows := Rows(view, sep, show);
    var all := [Header(sep)] + rows;
    assert |rows| == ViewSize(view);
    assert '\n' !in all[0];
    forall c | 0 <= c < |all| ensures '\n' !in all[c] {
      if c > 0 {
        assert all[c] == rows[c - 1];
        RowsNoBreak(view, sep, show, c - 1);
      }
    }
    LinesCount(all);
  }
}
