/**
 * The two-dimensional histogram: a list of x coordinates and a list of y
 * coordinates paired by position, a bin count, a low and a high bound
 * per axis, and the joint cells computed over the pairs inside the box.
 *
 * The cells are produced row by row (`x` bin outer, `y` bin inner), so
 * cell `(i, j)` sits at position `i * NY + j` of the bin list, where `NY`
 * is the number of `y` bins. Each axis uses the bin-index edge rule of
 * `Grid.InBin`, and a pair goes to the first cell accepting it on both
 * axes.
 */
module Histogram3D {
  import opened Values
  import opened Seqs
  import opened Grid
  import opened Claims
  import opened AbstractHistogram

  /** A value per axis: PHP's `array('x' => ..., 'y' => ...)`. */
  datatype XY<T> = XY(x: T, y: T)

  datatype AxisBin = AxisBin(low: real, high: real, mid: real)

  datatype Cell = Cell(x: AxisBin, y: AxisBin, count: nat, xbin: nat, ybin: nat)

  /** The coordinates as stored: the x list and the y list, paired by position. */
  datatype Pairs = Pairs(xs: seq<real>, ys: seq<real>)

  /** One entry of a bin options array: an `x`/`y` array, or anything else (missing included). */
  datatype AxisArg = AxisNotArray | AxisPair(x: Scalar, y: Scalar)

  /** The argument of `setBinOptions`: an array with `low`, `high` and `nbins` entries, or anything else. */
  datatype OptionsArg = OptionsNotArray | Options(low: AxisArg, high: AxisArg, nbins: AxisArg)

  /**
   * The argument of `setData`: anything but an array, or an array with
   * its `x` and `y` entries (`None` when missing or not an array) and the
   * number of its other keys.
   */
  datatype DataArg = DataNotArray | Coords(x: Option<seq<Scalar>>, y: Option<seq<Scalar>>, otherKeys: nat)

  /** One entry of a filtered view: the chosen edge on each axis and the cell's count. */
  datatype FilteredCell = FilteredCell(x: real, y: real, count: nat)

  /** What `getBins` returns: the cells, or their edge-filtered view. */
  datatype Bins = Full(cells: seq<Cell>) | Filtered(entries: seq<FilteredCell>)

  // ---------------------------------------------------------------------
  // Validation of arguments

  predicate ValidAxis(a: AxisArg) {
    a.AxisPair? && IsSet(a.x) && IsSet(a.y) && IsNumeric(a.x) && IsNumeric(a.y)
  }

  /** `_validBinOptions`: an array whose three entries each hold a numeric `x` and `y`. */
  predicate ValidBinOptions(o: OptionsArg) {
    o.Options? && ValidAxis(o.low) && ValidAxis(o.high) && ValidAxis(o.nbins)
  }

  function AxisValue(a: AxisArg): (r: XY<real>)
    requires ValidAxis(a)
    ensures r.x == NumValue(a.x) && r.y == NumValue(a.y)
  {
    XY(NumValue(a.x), NumValue(a.y))
  }

  /**
   * What `_validData` accepts: an array of exactly two entries, `x` and
   * `y`, both arrays of the same length holding numbers only.
   */
  predicate WellFormed(arg: DataArg) {
    && arg.Coords? && arg.x.Some? && arg.y.Some? && arg.otherKeys == 0
    && |arg.x.value| == |arg.y.value|
    && forall i :: 0 <= i < |arg.x.value| ==> IsNumeric(arg.x.value[i]) && IsNumeric(arg.y.value[i])
  }

  // ---------------------------------------------------------------------
  // The data inside the box

  function Zip(p: Pairs): (r: seq<(real, real)>)
    requires |p.xs| == |p.ys|
    ensures |r| == |p.xs|
    ensures forall i :: 0 <= i < |r| ==> r[i] == (p.xs[i], p.ys[i])
  {
    seq(|p.xs|, i requires 0 <= i < |p.xs| => (p.xs[i], p.ys[i]))
  }

  /** Appending one pair to both lists appends it to their zip. */
  lemma ZipSnoc(p: Pairs, x: real, y: real)
    requires |p.xs| == |p.ys|
    ensures Zip(Pairs(p.xs + [x], p.ys + [y])) == Zip(p) + [(x, y)]
  {
    var q := Pairs(p.xs + [x], p.ys + [y]);
    assert forall i :: 0 <= i < |p.xs| ==> Zip(q)[i] == Zip(p)[i];
  }

  predicate InBox(lo: XY<real>, hi: XY<real>, x: real, y: real) {
    lo.x <= x && hi.x >= x && lo.y <= y && hi.y >= y
  }

  /** The pairs inside the closed box `[lo, hi]`, in their order. */
  function FilterPairs(p: Pairs, lo: XY<real>, hi: XY<real>): (r: Pairs)
    requires |p.xs| == |p.ys|
    decreases |p.xs|
    ensures |r.xs| == |r.ys| <= |p.xs|
    ensures forall i :: 0 <= i < |r.xs| ==> InBox(lo, hi, r.xs[i], r.ys[i])
    ensures forall q :: q in Zip(r) <==> q in Zip(p) && InBox(lo, hi, q.0, q.1)
    ensures forall q {:trigger multiset(Zip(r))[q]} ::
      multiset(Zip(r))[q] == if InBox(lo, hi, q.0, q.1) then multiset(Zip(p))[q] else 0
  {
    if p.xs == [] then Pairs([], [])
    else
      var n := |p.xs| - 1;
      var init := Pairs(p.xs[..n], p.ys[..n]);
      var r0 := FilterPairs(init, lo, hi);
      assert p == Pairs(init.xs + [p.xs[n]], init.ys + [p.ys[n]]);
      ZipSnoc(init, p.xs[n], p.ys[n]);
      if InBox(lo, hi, p.xs[n], p.ys[n]) then
        ZipSnoc(r0, p.xs[n], p.ys[n]);
        Pairs(r0.xs + [p.xs[n]], r0.ys + [p.ys[n]])
      else
        r0
  }

  /**
   * The pairs are kept one by one in their order: filtering the
   * concatenation of two lists of pairs filters each and concatenates
   * the results.
   */
  lemma {:induction false} FilterPairsConcat(a: Pairs, b: Pairs, lo: XY<real>, hi: XY<real>)
    requires |a.xs| == |a.ys| && |b.xs| == |b.ys|
    ensures var fa, fb := FilterPairs(a, lo, hi), FilterPairs(b, lo, hi);
      FilterPairs(Pairs(a.xs + b.xs, a.ys + b.ys), lo, hi) == Pairs(fa.xs + fb.xs, fa.ys + fb.ys)
    decreases |b.xs|
  {
    if b.xs == [] {
      assert Pairs(a.xs + b.xs, a.ys + b.ys) == a;
    } else {
      var n := |b.xs| - 1;
      var init := Pairs(b.xs[..n], b.ys[..n]);
      FilterPairsConcat(a, init, lo, hi);
      var x, y := b.xs[n], b.ys[n];
      var ai := Pairs(a.xs + init.xs, a.ys + init.ys);
      assert b == Pairs(init.xs + [x], init.ys + [y]);
      assert Pairs(a.xs + b.xs, a.ys + b.ys) == Pairs(ai.xs + [x], ai.ys + [y]);
      FilterSnoc(init, x, y, lo, hi);
      FilterSnoc(ai, x, y, lo, hi);
      var fa, fi := FilterPairs(a, lo, hi), FilterPairs(init, lo, hi);
      if InBox(lo, hi, x, y) {
        assert fa.xs + (fi.xs + [x]) == (fa.xs + fi.xs) + [x];
        assert fa.ys + (fi.ys + [y]) == (fa.ys + fi.ys) + [y];
      }
    }
  }

  /** Filtering a list with one more pair at its end appends that pair when it lies in the box. */
  lemma FilterSnoc(p: Pairs, x: real, y: real, lo: XY<real>, hi: XY<real>)
    requires |p.xs| == |p.ys|
    ensures var f := FilterPairs(p, lo, hi);
      FilterPairs(Pairs(p.xs + [x], p.ys + [y]), lo, hi)
        == if InBox(lo, hi, x, y) then Pairs(f.xs + [x], f.ys + [y]) else f
  {
    var q := Pairs(p.xs + [x], p.ys + [y]);
    assert Pairs(q.xs[..|p.xs|], q.ys[..|p.xs|]) == p;
  }

  /** Filtering one more pair appends it when it lies in the box and changes nothing otherwise. */
  lemma FilterStep(p: Pairs, lo: XY<real>, hi: XY<real>, i: nat)
    requires |p.xs| == |p.ys| && i < |p.xs|
    ensures var f := FilterPairs(Pairs(p.xs[..i], p.ys[..i]), lo, hi);
      FilterPairs(Pairs(p.xs[..i + 1], p.ys[..i + 1]), lo, hi)
        == if InBox(lo, hi, p.xs[i], p.ys[i]) then Pairs(f.xs + [p.xs[i]], f.ys + [p.ys[i]]) else f
  {
    assert p.xs[..i + 1][..i] == p.xs[..i] && p.ys[..i + 1][..i] == p.ys[..i];
  }

  /** The filter loop of `_histogramData`: append each pair that lies in the box. */
  method KeepInBox(p: Pairs, lo: XY<real>, hi: XY<real>) returns (q: Pairs)
    requires |p.xs| == |p.ys|
    ensures q == FilterPairs(p, lo, hi)
  {
    var xs: seq<real> := [];
    var ys: seq<real> := [];
    for i := 0 to |p.xs|
      invariant Pairs(xs, ys) == FilterPairs(Pairs(p.xs[..i], p.ys[..i]), lo, hi)
    {
      FilterStep(p, lo, hi, i);
      var x, y := p.xs[i], p.ys[i];
      var inRangeX := lo.x <= x && hi.x >= x;
      var inRangeY := lo.y <= y && hi.y >= y;
      if inRangeX && inRangeY {
        xs := xs + [x];
        ys := ys + [y];
      }
    }
    assert p.xs[..|p.xs|] == p.xs && p.ys[..|p.ys|] == p.ys;
    q := Pairs(xs, ys);
  }

  /** `_getMinMax`: the least and the greatest of a non-empty coordinate list. */
  function MinMax(s: seq<real>): (r: (real, real))
    requires s != []
    ensures r.0 in s && r.1 in s
    ensures forall i :: 0 <= i < |s| ==> r.0 <= s[i] <= r.1
  {
    (Min(s), Max(s))
  }

  /** The box is exactly the data's extent on both axes. */
  predicate Spans(p: Pairs, lo: XY<real>, hi: XY<real>)
    requires |p.xs| == |p.ys| && p.xs != []
  {
    lo.x == Min(p.xs) && hi.x == Max(p.xs) && lo.y == Min(p.ys) && hi.y == Max(p.ys)
  }

  /**
   * What `_histogramData` returns for non-empty data: all of it when the
   * box is the data's extent, the pairs inside the box otherwise.
   */
  function InRangePairs(p: Pairs, lo: XY<real>, hi: XY<real>): (r: Pairs)
    requires |p.xs| == |p.ys| && p.xs != []
    ensures |r.xs| == |r.ys|
  {
    if Spans(p, lo, hi) then p else FilterPairs(p, lo, hi)
  }

  // ---------------------------------------------------------------------
  // Specification of `calculate`

  /** One axis of a calculation: first edge, bin width and number of bins. */
  datatype AxisGrid = AxisGrid(low: real, delta: real, n: nat)

  /** The axis `calculate` builds from a low bound, a high bound and a bin count. */
  function GridOf(lo: real, hi: real, nb: real): (g: AxisGrid)
    requires nb != 0.0
    ensures g.low == lo && g.n == Iters(nb)
    ensures g.delta * nb == hi - lo
  {
    AxisGrid(lo, (hi - lo) / nb, Iters(nb))
  }

  function AxisBinOf(g: AxisGrid, b: nat): AxisBin {
    AxisBin(Low(g.low, g.delta, b), High(g.low, g.delta, b), Mid(g.low, g.delta, b))
  }

  /** Cell `(i, j)` accepts the pair when bin `i` of X and bin `j` of Y accept its coordinates. */
  predicate CellAccepts(gx: AxisGrid, gy: AxisGrid, i: nat, j: nat, x: real, y: real) {
    InBin(gx.low, gx.delta, i, x) && InBin(gy.low, gy.delta, j, y)
  }

  /** The cell at row-major position `e` accepts the pair. */
  predicate AcceptsAt(gx: AxisGrid, gy: AxisGrid, e: nat, x: real, y: real) {
    gy.n > 0 && CellAccepts(gx, gy, e / gy.n, e % gy.n, x, y)
  }

  /** The first cell, in row-major order from position `c`, that accepts the pair. */
  function FirstCell(gx: AxisGrid, gy: AxisGrid, x: real, y: real, c: nat): (r: Option<nat>)
    decreases gx.n * gy.n - c
    ensures r.Some? ==> c <= r.value < gx.n * gy.n && AcceptsAt(gx, gy, r.value, x, y)
    ensures r.Some? ==> forall e :: c <= e < r.value ==> !AcceptsAt(gx, gy, e, x, y)
    ensures r.None? ==> forall e :: c <= e < gx.n * gy.n ==> !AcceptsAt(gx, gy, e, x, y)
  {
    if c >= gx.n * gy.n then None
    else if AcceptsAt(gx, gy, c, x, y) then Some(c)
    else FirstCell(gx, gy, x, y, c + 1)
  }

  /** For every pair, the position of the cell that claims it in a calculation. */
  function CellOwners(gx: AxisGrid, gy: AxisGrid, p: Pairs): (r: seq<Option<nat>>)
    requires |p.xs| == |p.ys|
    ensures |r| == |p.xs|
  {
    seq(|p.xs|, k requires 0 <= k < |p.xs| => FirstCell(gx, gy, p.xs[k], p.ys[k], 0))
  }

  /**
   * The count the code stores in cumulative mode: zero for an empty
   * cell, otherwise its frequency plus the running total through it,
   * less one.
   */
  function CumulativeCount(owners: seq<Option<nat>>, c: nat): nat
  {
    var freq := CountOf(owners, c);
    if freq > 0 then freq + RunningTotal(owners, c + 1) - 1 else 0
  }

  /** The cell at position `c` after `calculate`. */
  function CellAt(gx: AxisGrid, gy: AxisGrid, p: Pairs, cumulative: bool, c: nat): Cell
    requires |p.xs| == |p.ys| && gy.n > 0
  {
    var owners := CellOwners(gx, gy, p);
    Cell(AxisBinOf(gx, c / gy.n), AxisBinOf(gy, c % gy.n),
         if cumulative then CumulativeCount(owners, c) else CountOf(owners, c),
         c / gy.n, c % gy.n)
  }

  /** The bins after `calculate`: all `NX * NY` cells, row by row. */
  function Cells(gx: AxisGrid, gy: AxisGrid, p: Pairs, cumulative: bool): seq<Cell>
    requires |p.xs| == |p.ys|
  {
    if gy.n == 0 then []
    else seq(gx.n * gy.n, c requires 0 <= c < gx.n * gy.n => CellAt(gx, gy, p, cumulative, c))
  }

  lemma MulBounds(m: int, n: nat)
    ensures m >= 1 ==> m * n >= n
    ensures m <= -1 ==> m * n <= -(n as int)
  {
    if m >= 1 {
      assert m * n == (m - 1) * n + n;
    } else if m <= -1 {
      assert m * n == -((-m - 1) * n) - n;
    }
  }

  /** Position `i * ny + j` of a row-major layout with rows of `ny` is cell `(i, j)`. */
  lemma FlatIndex(i: nat, j: nat, ny: nat)
    requires j < ny
    ensures (i * ny + j) / ny == i
    ensures (i * ny + j) % ny == j
  {
    var a := i * ny + j;
    var q, r := a / ny, a % ny;
    assert a == q * ny + r;
    assert (q - i) * ny == j - r;
    MulBounds(q - i, ny);
  }

  lemma FlatBelow(i: nat, j: nat, nx: nat, ny: nat)
    requires i < nx && j < ny
    ensures i * ny + j < nx * ny
  {
    assert nx * ny - (i * ny + j) == (nx - i - 1) * ny + (ny - j);
  }

  /**
   * In the pass of cell `(i, j)`, pair `k` is taken exactly when no
   * earlier cell has taken it and cell `(i, j)` accepts it on both axes.
   */
  lemma CellOwnerStep(gx: AxisGrid, gy: AxisGrid, p: Pairs, i: nat, j: nat, k: nat)
    requires |p.xs| == |p.ys| && k < |p.xs|
    requires i < gx.n && j < gy.n
    ensures var o := CellOwners(gx, gy, p)[k];
      (!(o.Some? && o.value < i * gy.n + j) && CellAccepts(gx, gy, i, j, p.xs[k], p.ys[k]))
        <==> o == Some(i * gy.n + j)
  {
    var c := i * gy.n + j;
    FlatIndex(i, j, gy.n);
    FlatBelow(i, j, gx.n, gy.n);
    assert CellOwners(gx, gy, p)[k] == FirstCell(gx, gy, p.xs[k], p.ys[k], 0);
    assert AcceptsAt(gx, gy, c, p.xs[k], p.ys[k]) <==> CellAccepts(gx, gy, i, j, p.xs[k], p.ys[k]);
  }

  /**
   * The innermost loop of `calculate` for cell `(i, j)`: count every pair
   * the cell accepts that no earlier cell has taken, mark it, and add it
   * to the running total.
   */
  method CountCell(ghost gx: AxisGrid, ghost gy: AxisGrid, dataX: seq<real>, dataY: seq<real>,
                   i: nat, j: nat, loXBin: real, hiXBin: real, loYBin: real, hiYBin: real,
                   ignoreIn: seq<nat>, cummIn: nat)
    returns (freq: nat, ignoreList: seq<nat>, cumm: nat)
    requires |dataX| == |dataY| && i < gx.n && j < gy.n
    requires loXBin == Low(gx.low, gx.delta, i) && hiXBin == High(gx.low, gx.delta, i)
    requires loYBin == Low(gy.low, gy.delta, j) && hiYBin == High(gy.low, gy.delta, j)
    requires forall k :: 0 <= k < |dataX| ==>
      (k in ignoreIn <==> CellOwners(gx, gy, Pairs(dataX, dataY))[k].Some?
                          && CellOwners(gx, gy, Pairs(dataX, dataY))[k].value < i * gy.n + j)
    ensures freq == CountOf(CellOwners(gx, gy, Pairs(dataX, dataY)), i * gy.n + j)
    ensures forall k :: 0 <= k < |dataX| ==>
      (k in ignoreList <==> CellOwners(gx, gy, Pairs(dataX, dataY))[k].Some?
                            && CellOwners(gx, gy, Pairs(dataX, dataY))[k].value <= i * gy.n + j)
    ensures cumm == cummIn + freq
  {
    ghost var p := Pairs(dataX, dataY);
    ghost var owners := CellOwners(gx, gy, p);
    ghost var c := i * gy.n + j;
    freq, ignoreList, cumm := 0, ignoreIn, cummIn;
    for k := 0 to |dataX|
      invariant freq == CountOf(owners[..k], c)
      invariant forall h :: 0 <= h < |dataX| ==>
        (h in ignoreList <==> owners[h].Some? && (owners[h].value < c || (owners[h].value == c && h < k)))
      invariant cumm == cummIn + freq
    {
      CountOfExtend(owners, k, c);
      CellOwnerStep(gx, gy, p, i, j, k);
      if !(ignoreList != [] && k in ignoreList) {
        var valueX, valueY := dataX[k], dataY[k];
        var inRangeX, inRangeY;
        if i == 0 {
          inRangeX := loXBin <= valueX && hiXBin >= valueX;
        } else {
          inRangeX := loXBin < valueX && hiXBin >= valueX;
        }
        if j == 0 {
          inRangeY := loYBin <= valueY && hiYBin >= valueY;
        } else {
          inRangeY := loYBin < valueY && hiYBin >= valueY;
        }
        if inRangeX && inRangeY {
          freq := freq + 1;
          cumm := cumm + 1;
          ignoreList := ignoreList + [k];
        }
      }
    }
    assert owners[..|dataX|] == owners;
  }

  /**
   * Appending, to the first `i * NY + j` cells, a cell built from the
   * edges of bins `i` and `j` and holding the count the code derives from
   * the cell's frequency and the running total, extends them by the
   * specified cell at that position.
   */
  lemma BuiltCell(gx: AxisGrid, gy: AxisGrid, p: Pairs, cumulative: bool, i: nat, j: nat,
                  built: seq<Cell>, cell: Cell)
    requires |p.xs| == |p.ys| && i < gx.n && j < gy.n
    requires built <= Cells(gx, gy, p, cumulative) && |built| == i * gy.n + j
    requires cell.x == AxisBinOf(gx, i) && cell.y == AxisBinOf(gy, j) && cell.xbin == i && cell.ybin == j
    requires var owners := CellOwners(gx, gy, p);
      cell.count == if cumulative then CumulativeCount(owners, i * gy.n + j) else CountOf(owners, i * gy.n + j)
    ensures built + [cell] <= Cells(gx, gy, p, cumulative)
  {
    var c := i * gy.n + j;
    FlatIndex(i, j, gy.n);
    FlatBelow(i, j, gx.n, gy.n);
    var all := Cells(gx, gy, p, cumulative);
    assert all[c] == CellAt(gx, gy, p, cumulative, c);
    assert all[..c + 1] == all[..c] + [all[c]];
  }

  // ---------------------------------------------------------------------
  // Specification of `_filterBins`, `getBins` and `toSeparated`

  function EdgeOf(a: AxisBin, e: Edge): real {
    match e
    case LowEdge => a.low
    case MidEdge => a.mid
    case HighEdge => a.high
  }

  /** `_filterBins`: per cell, the chosen edge on both axes and the count. */
  function FilterCells(cells: seq<Cell>, e: Edge): (r: seq<FilteredCell>)
    ensures |r| == |cells|
    ensures forall c :: 0 <= c < |r| ==>
      r[c].count == cells[c].count && r[c].x == EdgeOf(cells[c].x, e) && r[c].y == EdgeOf(cells[c].y, e)
  {
    seq(|cells|, c requires 0 <= c < |cells| =>
      FilteredCell(EdgeOf(cells[c].x, e), EdgeOf(cells[c].y, e), cells[c].count))
  }

  /** The result of `getBins(mode)` over the given cells. */
  function BinsView(cells: seq<Cell>, mode: int): (r: Result<Bins>)
    ensures cells == [] ==> r == Err(NotCalculated)
    ensures r.Ok? <==> cells != [] && HISTOGRAM_ALL_BINS <= mode <= HISTOGRAM_HI_BINS
    ensures cells != [] && mode == HISTOGRAM_ALL_BINS ==> r == Ok(Full(cells))
    ensures cells != [] && mode == HISTOGRAM_LO_BINS ==> r == Ok(Filtered(FilterCells(cells, LowEdge)))
    ensures cells != [] && mode == HISTOGRAM_MID_BINS ==> r == Ok(Filtered(FilterCells(cells, MidEdge)))
    ensures cells != [] && mode == HISTOGRAM_HI_BINS ==> r == Ok(Filtered(FilterCells(cells, HighEdge)))
    ensures cells != [] && r.Err? ==> r.error == IncorrectBinMode
  {
    match ParseBinMode(cells != [], mode)
    case Err(e) => Err(e)
    case Ok(AllBins) => Ok(Full(cells))
    case Ok(EdgeView(e)) => Ok(Filtered(FilterCells(cells, e)))
  }

  function Header(sep: string): string {
    "# x_bin" + sep + "y_bin" + sep + "frequency"
  }

  /**
   * The lines `toSeparated` writes after the header: the values of each
   * entry joined by the separator. A full cell's two edge records are
   * arrays, which PHP renders as the word "Array".
   */
  function Rows(view: Bins, sep: string, show: real -> string): seq<string>
  {
    match view
    case Full(cs) => seq(|cs|, c requires 0 <= c < |cs| => FullRow(cs[c], sep))
    case Filtered(es) => seq(|es|, c requires 0 <= c < |es| => FilteredRow(es[c], sep, show))
  }

  function FullRow(cell: Cell, sep: string): string {
    "Array" + sep + "Array" + sep + NatToString(cell.count) + sep
      + NatToString(cell.xbin) + sep + NatToString(cell.ybin)
  }

  function FilteredRow(entry: FilteredCell, sep: string, show: real -> string): string {
    show(entry.x) + sep + show(entry.y) + sep + NatToString(entry.count)
  }

  /** The loop of `toSeparated` that renders the entries of the view, one line each. */
  method WriteRows(view: Bins, sep: string, show: real -> string) returns (out: seq<string>)
    ensures out == Rows(view, sep, show)
  {
    ghost var rows := Rows(view, sep, show);
    out := [];
    match view {
      case Full(cs) =>
        for c := 0 to |cs|
          invariant out == rows[..c]
        {
          assert rows[..c + 1] == rows[..c] + [rows[c]];
          out := out + [FullRow(cs[c], sep)];
        }
      case Filtered(es) =>
        for c := 0 to |es|
          invariant out == rows[..c]
        {
          assert rows[..c + 1] == rows[..c] + [rows[c]];
          out := out + [FilteredRow(es[c], sep, show)];
        }
    }
    assert rows[..|rows|] == rows;
  }

  // ---------------------------------------------------------------------

  class Histogram3D {
    var htype: Option<HistType>      // `_type`; unset after a refused type at construction
    var nbins: Option<XY<real>>      // `_nbins`, unset while null
    var rangeLow: Option<XY<real>>   // `_rangeLow`, unset while null
    var rangeHigh: Option<XY<real>>  // `_rangeHigh`, unset while null
    var data: Option<Pairs>          // `_data`, unset while null
    var bins: seq<Cell>              // `_bins`
    var stats: bool                  // whether statistics engines are held in `_stats`
    var statsMode: Option<int>       // `_statsMode`

    ghost predicate Valid()
      reads this
    {
      && (data.Some? ==> |data.value.xs| == |data.value.ys|)
      && (data.Some? && data.value.xs != [] ==> rangeLow.Some? && rangeHigh.Some?)
      && (bins != [] ==> data.Some? && data.value.xs != [])
    }

    predicate IsCalculated()
      reads this
    {
      bins != []
    }

    constructor (typeCode: int, opts: OptionsArg)
      ensures Valid()
      ensures ParseType(typeCode).Ok? ==> htype == Some(ParseType(typeCode).value)
      ensures ParseType(typeCode).Err? ==> htype == None
      ensures ValidBinOptions(opts) ==>
        (rangeLow == Some(AxisValue(opts.low)) && rangeHigh == Some(AxisValue(opts.high))
         && nbins == Some(AxisValue(opts.nbins)))
      ensures !ValidBinOptions(opts) ==> rangeLow == None && rangeHigh == None && nbins == None
      ensures data == None && bins == [] && !stats && statsMode == None
    {
      var t := ParseType(typeCode);
      htype := if t.Ok? then Some(t.value) else None;
      if ValidBinOptions(opts) {
        rangeLow, rangeHigh, nbins := Some(AxisValue(opts.low)), Some(AxisValue(opts.high)), Some(AxisValue(opts.nbins));
      } else {
        rangeLow, rangeHigh, nbins := None, None, None;
      }
      data, bins := None, [];
      stats, statsMode := false, None;
    }

    /** `setType`: store the type for a valid code, refuse any other code. */
    method SetType(code: int) returns (r: Result<()>)
      modifies this`htype
      ensures r.Ok? <==> code == HISTOGRAM_SIMPLE || code == HISTOGRAM_CUMMULATIVE
      ensures r.Ok? ==> htype == Some(ParseType(code).value)
      ensures r.Err? ==> r.error == WrongType && htype == old(htype)
    {
      var t := ParseType(code);
      if t.Ok? {
        htype := Some(t.value);
        r := Ok(());
      } else {
        r := Err(t.error);
      }
    }

    /** `setBinOptions`: store valid options, refuse anything else and keep the old ones. */
    method SetBinOptions(opts: OptionsArg) returns (r: Result<()>)
      requires Valid()
      modifies this`rangeLow, this`rangeHigh, this`nbins
      ensures Valid()
      ensures r.Ok? <==> ValidBinOptions(opts)
      ensures r.Ok? ==>
        (rangeLow == Some(AxisValue(opts.low)) && rangeHigh == Some(AxisValue(opts.high))
         && nbins == Some(AxisValue(opts.nbins)))
      ensures r.Err? ==>
        (r.error == IncorrectOptions && rangeLow == old(rangeLow) && rangeHigh == old(rangeHigh)
         && nbins == old(nbins))
    {
      if ValidBinOptions(opts) {
        rangeLow := Some(AxisValue(opts.low));
        rangeHigh := Some(AxisValue(opts.high));
        nbins := Some(AxisValue(opts.nbins));
        r := Ok(());
      } else {
        r := Err(IncorrectOptions);
      }
    }

    /** `_clear`: drop the statistics, the data and the bins; keep type, bin counts and box. */
    method Clear()
      modifies this`stats, this`statsMode, this`data, this`bins
      ensures !stats && statsMode == None && data == None && bins == []
    {
      stats := false;
      statsMode := None;
      data := None;
      bins := [];
    }

    /** `_validData`, with its early exits. */
    method ValidData(arg: DataArg) returns (b: bool)
      ensures b <==> WellFormed(arg)
    {
      if arg.Coords? && arg.x.Some? && arg.y.Some? {
        var xs, ys := arg.x.value, arg.y.value;
        var n := |xs|;
        if arg.otherKeys == 0 && n == |ys| {
          for i := 0 to n
            invariant forall h :: 0 <= h < i ==> IsNumeric(xs[h]) && IsNumeric(ys[h])
          {
            if !IsNumeric(xs[i]) || !IsNumeric(ys[i]) {
              return false;
            }
          }
          return true;
        } else {
          return false;
        }
      } else {
        return false;
      }
    }

    /**
     * `setData`: clear, check the argument, store it, then default each
     * unset bound to the data's extent and unset bin counts to ten per
     * axis. The extent is taken even when both bounds are set, so empty
     * coordinate lists are refused after being stored.
     */
    method SetData(arg: DataArg) returns (r: Result<()>)
      requires Valid()
      modifies this`stats, this`statsMode, this`data, this`bins, this`rangeLow, this`rangeHigh, this`nbins
      ensures Valid()
      ensures !stats && statsMode == None && bins == []
      ensures !WellFormed(arg) ==> r == Err(InvalidCoordinates) && data == None
      ensures WellFormed(arg) ==> data == Some(Pairs(Numbers(arg.x.value), Numbers(arg.y.value)))
      ensures WellFormed(arg) && arg.x.value == [] ==> r == Err(EmptyData)
      ensures r.Ok? <==> WellFormed(arg) && arg.x.value != []
      ensures r.Err? ==> rangeLow == old(rangeLow) && rangeHigh == old(rangeHigh) && nbins == old(nbins)
      ensures r.Ok? && old(rangeLow).Some? ==> rangeLow == old(rangeLow)
      ensures r.Ok? && old(rangeLow).None? ==> rangeLow == Some(XY(Min(data.value.xs), Min(data.value.ys)))
      ensures r.Ok? && old(rangeHigh).Some? ==> rangeHigh == old(rangeHigh)
      ensures r.Ok? && old(rangeHigh).None? ==> rangeHigh == Some(XY(Max(data.value.xs), Max(data.value.ys)))
      ensures r.Ok? && old(nbins).Some? ==> nbins == old(nbins)
      ensures r.Ok? && old(nbins).None? ==> nbins == Some(XY(10.0, 10.0))
    {
      Clear();
      var ok := ValidData(arg);
      if !ok {
        return Err(InvalidCoordinates);
      }
      var p := Pairs(Numbers(arg.x.value), Numbers(arg.y.value));
      data := Some(p);
      if p.xs == [] {
        return Err(EmptyData);
      }
      FillDefaults(p);
      r := Ok(());
    }

    /** The defaults `setData` fills in: the data's extent for an unset box, 10 bins per axis for unset counts. */
    method FillDefaults(p: Pairs)
      requires p.xs != [] && p.ys != []
      modifies this`rangeLow, this`rangeHigh, this`nbins
      ensures old(rangeLow).Some? ==> rangeLow == old(rangeLow)
      ensures old(rangeLow).None? ==> rangeLow == Some(XY(Min(p.xs), Min(p.ys)))
      ensures old(rangeHigh).Some? ==> rangeHigh == old(rangeHigh)
      ensures old(rangeHigh).None? ==> rangeHigh == Some(XY(Max(p.xs), Max(p.ys)))
      ensures old(nbins).Some? ==> nbins == old(nbins)
      ensures old(nbins).None? ==> nbins == Some(XY(10.0, 10.0))
    {
      var (xMin, xMax) := MinMax(p.xs);
      var (yMin, yMax) := MinMax(p.ys);
      if rangeLow.None? {
        rangeLow := Some(XY(xMin, yMin));
      }
      if rangeHigh.None? {
        rangeHigh := Some(XY(xMax, yMax));
      }
      if nbins.None? {
        nbins := Some(XY(10.0, 10.0));
      }
    }

    /** `getData`: the stored pairs, or an error while none are set. */
    method GetData() returns (r: Result<Pairs>)
      ensures data.None? ==> r == Err(DataNotSet)
      ensures data.Some? ==> r == Ok(data.value)
    {
      if data.None? {
        r := Err(DataNotSet);
      } else {
        r := Ok(data.value);
      }
    }

    /**
     * `_histogramData`: the stored pairs when the box is their extent,
     * otherwise the pairs inside the box; empty data has no extent.
     */
    method HistogramData() returns (r: Result<Pairs>)
      requires Valid() && data.Some?
      ensures data.value.xs == [] ==> r == Err(EmptyData)
      ensures data.value.xs != [] ==> r == Ok(InRangePairs(data.value, rangeLow.value, rangeHigh.value))
    {
      var p := data.value;
      if p.xs == [] {
        return Err(EmptyData);
      }
      var lo, hi := rangeLow.value, rangeHigh.value;
      if lo.x == Min(p.xs) && hi.x == Max(p.xs) && lo.y == Min(p.ys) && hi.y == Max(p.ys) {
        return Ok(p);
      }
      var q := KeepInBox(p, lo, hi);
      r := Ok(q);
    }

    /** `getHistogramData`: the pairs a calculation uses, or an error while no data is set. */
    method GetHistogramData() returns (r: Result<Pairs>)
      requires Valid()
      ensures data.None? ==> r == Err(DataNotSet)
      ensures data.Some? && data.value.xs == [] ==> r == Err(EmptyData)
      ensures data.Some? && data.value.xs != [] ==>
        r == Ok(InRangePairs(data.value, rangeLow.value, rangeHigh.value))
    {
      if data.None? {
        r := Err(DataNotSet);
      } else {
        r := HistogramData();
      }
    }

    /**
     * `calculate`: rebuild the bin list from scratch, one cell per pair
     * of an `x` bin and a `y` bin, handing every pair to the first cell
     * that accepts it. An unset or zero bin count is a division by zero;
     * without data, or with empty data, `_histogramData` fails. The PHP
     * method returns nothing; `Ok(())` stands for its normal completion.
     */
    method Calculate(mode: int) returns (r: Result<()>)
      requires Valid()
      modifies this`bins, this`stats, this`statsMode
      ensures Valid()
      ensures stats && statsMode == Some(mode)
      ensures nbins.None? || nbins.value.x == 0.0 || nbins.value.y == 0.0 ==> r == Err(DivisionByZero)
      ensures nbins.Some? && nbins.value.x != 0.0 && nbins.value.y != 0.0 && data.None? ==> r == Err(DataNotSet)
      ensures nbins.Some? && nbins.value.x != 0.0 && nbins.value.y != 0.0 && data.Some? && data.value.xs == [] ==>
        r == Err(EmptyData)
      ensures r.Err? <==>
        nbins.None? || nbins.value.x == 0.0 || nbins.value.y == 0.0 || data.None? || data.value.xs == []
      ensures r.Err? ==> bins == []
      ensures r.Ok? ==> nbins.Some? && data.Some? && data.value.xs != [] && rangeLow.Some? && rangeHigh.Some?
      ensures r.Ok? ==> bins == Cells(
        GridOf(rangeLow.value.x, rangeHigh.value.x, nbins.value.x),
        GridOf(rangeLow.value.y, rangeHigh.value.y, nbins.value.y),
        InRangePairs(data.value, rangeLow.value, rangeHigh.value),
        htype == Some(Cummulative))
    {
      bins := [];
      stats := true;
      statsMode := Some(mode);
      if nbins.None? || nbins.value.x == 0.0 || nbins.value.y == 0.0 {
        return Err(DivisionByZero);
      }
      if data.None? {
        return Err(DataNotSet);
      }
      var hd := HistogramData();
      if hd.Err? {
        return Err(hd.error);
      }
      var lo, hi, nb := rangeLow.value, rangeHigh.value, nbins.value;
      var deltaX := (hi.x - lo.x) / nb.x;
      var deltaY := (hi.y - lo.y) / nb.y;
      ghost var gx, gy := AxisGrid(lo.x, deltaX, Iters(nb.x)), AxisGrid(lo.y, deltaY, Iters(nb.y));
      FillCells(gx, gy, hd.value.xs, hd.value.ys, lo.x, deltaX, nb.x, lo.y, deltaY, nb.y);
      assert gx == GridOf(lo.x, hi.x, nb.x) && gy == GridOf(lo.y, hi.y, nb.y);
      r := Ok(());
    }

    /**
     * The outer loop of `calculate`: starting from no cells, one row of
     * cells per `x` bin, with every pair handed to the first cell that
     * accepts it.
     */
    method FillCells(ghost gx: AxisGrid, ghost gy: AxisGrid, dataX: seq<real>, dataY: seq<real>,
                     loX: real, deltaX: real, nbX: real, loY: real, deltaY: real, nbY: real)
      requires |dataX| == |dataY| && bins == []
      requires gx == AxisGrid(loX, deltaX, Iters(nbX))
      requires gy == AxisGrid(loY, deltaY, Iters(nbY))
      modifies this`bins
      ensures bins == Cells(gx, gy, Pairs(dataX, dataY), htype == Some(Cummulative))
    {
      var ignoreList: seq<nat> := [];
      var cumm: nat := 0;
      ghost var p := Pairs(dataX, dataY);
      ghost var owners := CellOwners(gx, gy, p);
      ghost var cumulative := htype == Some(Cummulative);
      var i: nat := 0;
      while (i as real) < nbX
        invariant i <= gx.n
        invariant |bins| == i * gy.n
        invariant bins <= Cells(gx, gy, p, cumulative)
        invariant forall k :: 0 <= k < |dataX| ==>
          (k in ignoreList <==> owners[k].Some? && owners[k].value < |bins|)
        invariant cumm == RunningTotal(owners, |bins|)
        decreases gx.n - i
      {
        ItersBound(nbX, i);
        ignoreList, cumm := FillRow(gx, gy, dataX, dataY, i, loX, deltaX, nbY, loY, deltaY, ignoreList, cumm);
        i := i + 1;
      }
      ItersBound(nbX, i);
      assert i == gx.n;
      assert |bins| == |Cells(gx, gy, p, cumulative)|;
    }

    /**
     * One pass of the outer loop of `calculate`, for `x` bin `i`: lay out
     * the bin, then append one cell per `y` bin, in order, each holding
     * its simple or cumulative count.
     */
    method FillRow(ghost gx: AxisGrid, ghost gy: AxisGrid, dataX: seq<real>, dataY: seq<real>, i: nat,
                   loX: real, deltaX: real, nbY: real, loY: real, deltaY: real, ignoreIn: seq<nat>, cummIn: nat)
      returns (ignoreList: seq<nat>, cumm: nat)
      requires |dataX| == |dataY| && i < gx.n
      requires gx.low == loX && gx.delta == deltaX
      requires gy == AxisGrid(loY, deltaY, Iters(nbY))
      requires |bins| == i * gy.n
      requires bins <= Cells(gx, gy, Pairs(dataX, dataY), htype == Some(Cummulative))
      requires forall k :: 0 <= k < |dataX| ==>
        (k in ignoreIn <==> CellOwners(gx, gy, Pairs(dataX, dataY))[k].Some?
                            && CellOwners(gx, gy, Pairs(dataX, dataY))[k].value < |bins|)
      requires cummIn == RunningTotal(CellOwners(gx, gy, Pairs(dataX, dataY)), |bins|)
      modifies this`bins
      ensures |bins| == (i + 1) * gy.n
      ensures bins <= Cells(gx, gy, Pairs(dataX, dataY), htype == Some(Cummulative))
      ensures forall k :: 0 <= k < |dataX| ==>
        (k in ignoreList <==> CellOwners(gx, gy, Pairs(dataX, dataY))[k].Some?
                              && CellOwners(gx, gy, Pairs(dataX, dataY))[k].value < |bins|)
      ensures cumm == RunningTotal(CellOwners(gx, gy, Pairs(dataX, dataY)), |bins|)
    {
      ghost var p := Pairs(dataX, dataY);
      ghost var owners := CellOwners(gx, gy, p);
      ghost var cumulative := htype == Some(Cummulative);
      var xBin := AxisBin(Low(loX, deltaX, i), High(loX, deltaX, i), Mid(loX, deltaX, i));
      ignoreList, cumm := ignoreIn, cummIn;
      var j: nat := 0;
      while (j as real) < nbY
        invariant j <= gy.n
        invariant |bins| == i * gy.n + j
        invariant bins <= Cells(gx, gy, p, cumulative)
        invariant forall k :: 0 <= k < |dataX| ==>
          (k in ignoreList <==> owners[k].Some? && owners[k].value < |bins|)
        invariant cumm == RunningTotal(owners, |bins|)
        decreases gy.n - j
      {
        ItersBound(nbY, j);
        ignoreList, cumm := AddCell(gx, gy, dataX, dataY, i, j, xBin, loY, deltaY, ignoreList, cumm);
        j := j + 1;
      }
      ItersBound(nbY, j);
      assert |bins| == (i + 1) * gy.n;
    }

    /**
     * One pass of the middle loop of `calculate`, for cell `(i, j)`: lay
     * out `y` bin `j`, count the pairs the cell claims, and append the
     * cell with its simple or cumulative count.
     */
    method AddCell(ghost gx: AxisGrid, ghost gy: AxisGrid, dataX: seq<real>, dataY: seq<real>, i: nat, j: nat,
                   xBin: AxisBin, loY: real, deltaY: real, ignoreIn: seq<nat>, cummIn: nat)
      returns (ignoreList: seq<nat>, cumm: nat)
      requires |dataX| == |dataY| && i < gx.n && j < gy.n
      requires xBin == AxisBinOf(gx, i) && gy.low == loY && gy.delta == deltaY
      requires |bins| == i * gy.n + j
      requires bins <= Cells(gx, gy, Pairs(dataX, dataY), htype == Some(Cummulative))
      requires forall k :: 0 <= k < |dataX| ==>
        (k in ignoreIn <==> CellOwners(gx, gy, Pairs(dataX, dataY))[k].Some?
                            && CellOwners(gx, gy, Pairs(dataX, dataY))[k].value < |bins|)
      requires cummIn == RunningTotal(CellOwners(gx, gy, Pairs(dataX, dataY)), |bins|)
      modifies this`bins
      ensures |bins| == old(|bins|) + 1
      ensures bins <= Cells(gx, gy, Pairs(dataX, dataY), htype == Some(Cummulative))
      ensures forall k :: 0 <= k < |dataX| ==>
        (k in ignoreList <==> CellOwners(gx, gy, Pairs(dataX, dataY))[k].Some?
                              && CellOwners(gx, gy, Pairs(dataX, dataY))[k].value < |bins|)
      ensures cumm == RunningTotal(CellOwners(gx, gy, Pairs(dataX, dataY)), |bins|)
    {
      var yBin := AxisBin(Low(loY, deltaY, j), High(loY, deltaY, j), Mid(loY, deltaY, j));
      var freq;
      freq, ignoreList, cumm :=
        CountCell(gx, gy, dataX, dataY, i, j, xBin.low, xBin.high, yBin.low, yBin.high, ignoreIn, cummIn);
      var count: nat;
      if htype == Some(Cummulative) {
        if freq > 0 {
          count := freq + cumm - 1;
        } else {
          count := 0;
        }
      } else {
        count := freq;
      }
      BuiltCell(gx, gy, Pairs(dataX, dataY), htype == Some(Cummulative), i, j, bins, Cell(xBin, yBin, count, i, j));
      bins := bins + [Cell(xBin, yBin, count, i, j)];
    }

    /** `getDataStats`: the statistics requests over both coordinate lists, once calculated. */
    method GetDataStats() returns (r: Result<XY<StatsQuery<seq<real>>>>)
      requires Valid()
      ensures !IsCalculated() ==> r == Err(NotCalculated)
      ensures IsCalculated() ==> r == Ok(XY(StatsQuery(data.value.xs, statsMode), StatsQuery(data.value.ys, statsMode)))
    {
      if !IsCalculated() {
        return Err(NotCalculated);
      }
      r := Ok(XY(StatsQuery(data.value.xs, statsMode), StatsQuery(data.value.ys, statsMode)));
    }

    /** `getHistogramDataStats`: the statistics requests over the pairs a calculation uses. */
    method GetHistogramDataStats() returns (r: Result<XY<StatsQuery<seq<real>>>>)
      requires Valid()
      ensures !IsCalculated() ==> r == Err(NotCalculated)
      ensures IsCalculated() ==>
        var d := InRangePairs(data.value, rangeLow.value, rangeHigh.value);
        r == Ok(XY(StatsQuery(d.xs, statsMode), StatsQuery(d.ys, statsMode)))
    {
      if !IsCalculated() {
        return Err(NotCalculated);
      }
      var hd := HistogramData();
      r := Ok(XY(StatsQuery(hd.value.xs, statsMode), StatsQuery(hd.value.ys, statsMode)));
    }

    /** `_filterBins`: one entry per cell, in cell order. */
    method FilterBins(e: Edge) returns (entries: seq<FilteredCell>)
      ensures entries == FilterCells(bins, e)
    {
      entries := [];
      for c := 0 to |bins|
        invariant entries == FilterCells(bins[..c], e)
      {
        var cell := bins[c];
        entries := entries + [FilteredCell(EdgeOf(cell.x, e), EdgeOf(cell.y, e), cell.count)];
      }
      assert bins[..|bins|] == bins;
    }

    /** `getBins`: the cells or a filtered view of them, once calculated. */
    method GetBins(mode: int) returns (r: Result<Bins>)
      ensures r == BinsView(bins, mode)
    {
      var v := ParseBinMode(IsCalculated(), mode);
      match v
      case Err(e) =>
        r := Err(e);
      case Ok(AllBins) =>
        r := Ok(Full(bins));
      case Ok(EdgeView(e)) =>
        var entries := FilterBins(e);
        r := Ok(Filtered(entries));
    }

    /**
     * `toSeparated`: the header line, then the values of each entry of the
     * requested view joined by the separator, each line ending in a newline.
     */
    method ToSeparated(mode: int, sep: string, show: real -> string) returns (r: Result<string>)
      ensures BinsView(bins, mode).Err? ==> r == Err(BinsView(bins, mode).error)
      ensures BinsView(bins, mode).Ok? ==>
        r == Ok(Lines([Header(sep)] + Rows(BinsView(bins, mode).value, sep, show)))
    {
      var view := GetBins(mode);
      if view.Err? {
        return Err(view.error);
      }
      var rows := WriteRows(view.value, sep, show);
      var out := [Header(sep)] + rows;
      ImplodeThenNewline(out);
      r := Ok(Implode("\n", out) + "\n");
    }

    /**
     * `getHistogramInfo`: refused while no bin counts are set; otherwise
     * type label, both statistics requests, cells, bin counts and box,
     * once calculated.
     */
    method GetHistogramInfo() returns (r: Result<Info<Cell, XY<real>, Option<XY<real>>, XY<StatsQuery<seq<real>>>>>)
      requires Valid()
      ensures nbins.None? || !IsCalculated() ==> r == Err(NotCalculated)
      ensures nbins.Some? && IsCalculated() ==>
        var d := InRangePairs(data.value, rangeLow.value, rangeHigh.value);
        r == Ok(Info(TypeName(htype),
          XY(StatsQuery(data.value.xs, statsMode), StatsQuery(data.value.ys, statsMode)),
          XY(StatsQuery(d.xs, statsMode), StatsQuery(d.ys, statsMode)),
          bins, nbins.value, rangeLow, rangeHigh))
    {
      if nbins.None? {
        return Err(NotCalculated);
      }
      var ds := GetDataStats();
      if ds.Err? {
        return Err(ds.error);
      }
      var hs := GetHistogramDataStats();
      r := Ok(Info(TypeName(htype), ds.value, hs.value, bins, nbins.value, rangeLow, rangeHigh));
    }
  }
}
