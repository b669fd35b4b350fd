/**
 * The one-dimensional histogram: a list of numbers, a bin count, a
 * closed range and the bins computed over the part of the data inside
 * the range, in simple or cumulative mode.
 *
 * The assignment rule of `calculate` is the one of the code: the bin
 * `[lo, hi]` accepts the sample at position `j` of the in-range data when
 * `lo < v <= hi`, except that the sample at position 0 is also accepted
 * on the low edge, and a sample goes to the first bin that accepts it.
 */
module Histogram {
  import opened Values
  import opened Seqs
  import opened Grid
  import opened Claims
  import opened AbstractHistogram

  datatype Bin = Bin(low: real, high: real, mid: real, count: nat)

  /** What `getBinOptions` returns. */
  datatype BinOptions = BinOptions(nbins: nat, rangeLow: Option<real>, rangeHigh: Option<real>)

  /** The argument of `setData`: a PHP array of scalars, or anything else. */
  datatype DataArg = NotArray | Items(items: seq<Scalar>)

  /**
   * What `getBins` returns: the bins, or the `edge => count` array of a
   * filtered view, whose keys are the string forms of the edges.
   */
  datatype Bins = Full(bins: seq<Bin>) | Keyed(entries: seq<(string, nat)>)

  /** The bin count `setBinOptions` stores: an integer above 2, else 10. */
  function CoerceNbins(n: Scalar): (r: nat)
    ensures r > 2
    ensures r == 10 || (n.Int? && r == n.i)
    ensures n.Int? && n.i > 2 ==> r == n.i
  {
    if n.Int? && n.i > 2 then n.i else 10
  }

  /**
   * Whether `_histogramData` keeps the sample `v`: it is dropped when it
   * is below the low bound or above the high bound. An unset bound is
   * PHP's null, and a number compares with null as a boolean: no number
   * is below null, and every non-zero number is above it.
   */
  predicate Kept(v: real, lo: Option<real>, hi: Option<real>) {
    var below := lo.Some? && v < lo.value;
    var above := if hi.Some? then v > hi.value else v != 0.0;
    !(below || above)
  }

  /** The samples `_histogramData` keeps, in their order. */
  function KeepInBounds(s: seq<real>, lo: Option<real>, hi: Option<real>): (r: seq<real>)
    ensures |r| <= |s|
    ensures forall v :: v in r <==> v in s && Kept(v, lo, hi)
    ensures forall v {:trigger multiset(r)[v]} ::
      multiset(r)[v] == if Kept(v, lo, hi) then multiset(s)[v] else 0
    ensures lo.Some? && hi.Some? ==> r == InRange(s, lo.value, hi.value)
  {
    if s == [] then []
    else
      var init := s[..|s| - 1];
      var last := s[|s| - 1];
      var r0 := KeepInBounds(init, lo, hi);
      assert s == init + [last];
      if Kept(last, lo, hi) then r0 + [last] else r0
  }

  /**
   * The samples are kept one by one in their order: filtering a
   * concatenation filters each part and concatenates the results.
   */
  lemma {:induction false} KeepInBoundsConcat(a: seq<real>, b: seq<real>, lo: Option<real>, hi: Option<real>)
    ensures KeepInBounds(a + b, lo, hi) == KeepInBounds(a, lo, hi) + KeepInBounds(b, lo, hi)
  {
    if b != [] {
      var init := b[..|b| - 1];
      KeepInBoundsConcat(a, init, lo, hi);
      assert (a + b)[..|a + b| - 1] == a + init;
    } else {
      assert a + b == a;
    }
  }

  // ---------------------------------------------------------------------
  // Specification of `calculate`

  /** The bin grid of one calculation: its first edge, bin width and bin count. */
  datatype Layout = Layout(low: real, delta: real, n: nat)

  /** The grid `calculate` builds: `n` bins of width `(hi - lo) / n` from `lo`. */
  function LayoutOf(lo: real, hi: real, n: nat): (f: Layout)
    requires n > 0
    ensures f.low == lo && f.n == n
    ensures f.low + (n as real) * f.delta == hi
  {
    Layout(lo, (hi - lo) / (n as real), n)
  }

  /** The membership test of `calculate`, keyed on the sample's position `j`. */
  predicate Accepts(j: nat, lo: real, hi: real, v: real) {
    if j == 0 then lo <= v && hi >= v else lo < v && hi >= v
  }

  predicate BinAccepts(f: Layout, i: nat, j: nat, v: real) {
    Accepts(j, Low(f.low, f.delta, i), High(f.low, f.delta, i), v)
  }

  /** The first bin from `from` on that accepts the sample `v` at position `j`. */
  function FirstBin(f: Layout, j: nat, v: real, from: nat): (r: Option<nat>)
    decreases f.n - from
    ensures r.Some? ==> from <= r.value < f.n && BinAccepts(f, r.value, j, v)
    ensures r.Some? ==> forall b :: from <= b < r.value ==> !BinAccepts(f, b, j, v)
    ensures r.None? ==> forall b :: from <= b < f.n ==> !BinAccepts(f, b, j, v)
  {
    if from >= f.n then None
    else if BinAccepts(f, from, j, v) then Some(from)
    else FirstBin(f, j, v, from + 1)
  }

  /** For every in-range sample, the bin that claims it in a calculation. */
  function Owners(f: Layout, d: seq<real>): (r: seq<Option<nat>>)
    ensures |r| == |d|
  {
    seq(|d|, j requires 0 <= j < |d| => FirstBin(f, j, d[j], 0))
  }

  /**
   * Bin `i` as `calculate` leaves it: its edges, and either its own
   * frequency or, in cumulative mode, the frequencies of bins `0 .. i`.
   */
  function BinAt(f: Layout, d: seq<real>, cumulative: bool, i: nat): Bin
  {
    var owners := Owners(f, d);
    Bin(Low(f.low, f.delta, i), High(f.low, f.delta, i), Mid(f.low, f.delta, i),
        if cumulative then RunningTotal(owners, i + 1) else CountOf(owners, i))
  }

  /**
   * The bins after `calculate`: entries `0 .. n-1` are rewritten, and
   * entries of an earlier calculation at positions `n` and above remain.
   */
  function Binned(f: Layout, d: seq<real>, cumulative: bool, prev: seq<Bin>): seq<Bin>
  {
    seq(f.n, i requires 0 <= i < f.n => BinAt(f, d, cumulative, i))
      + (if |prev| > f.n then prev[f.n..] else [])
  }

  /**
   * A list holding the specified bin at each of the first `n` positions
   * and the earlier entries beyond them is the list `Binned` describes.
   */
  lemma RewrittenBins(f: Layout, d: seq<real>, cumulative: bool, prev: seq<Bin>, bins: seq<Bin>)
    requires |bins| == if |prev| > f.n then |prev| else f.n
    requires forall b :: 0 <= b < f.n ==> bins[b] == BinAt(f, d, cumulative, b)
    requires forall b :: f.n <= b < |bins| ==> bins[b] == prev[b]
    ensures bins == Binned(f, d, cumulative, prev)
  {
    var want := Binned(f, d, cumulative, prev);
    assert |bins| == |want|;
    forall b | 0 <= b < |bins| ensures bins[b] == want[b] {
      if b >= f.n {
        assert want[b] == prev[f.n..][b - f.n];
      }
    }
  }

  /**
   * In the pass of bin `i`, sample `j` is taken exactly when no lower bin
   * has taken it and bin `i` accepts it, that is, when `i` is its first
   * accepting bin.
   */
  lemma OwnerStep(f: Layout, d: seq<real>, i: nat, j: nat)
    requires i < f.n && j < |d|
    ensures var o := Owners(f, d)[j];
      (!(o.Some? && o.value < i) && BinAccepts(f, i, j, d[j])) <==> o == Some(i)
  {
  }

  /**
   * A bin entry laid out at position `i`, holding the running total below
   * `i` in cumulative mode (zero otherwise), becomes `BinAt` once the
   * pass of bin `i` has added the bin's own frequency.
   */
  lemma FilledBin(f: Layout, d: seq<real>, cumulative: bool, i: nat, entry: Bin)
    requires entry.low == Low(f.low, f.delta, i) && entry.high == High(f.low, f.delta, i)
    requires entry.mid == (entry.high + entry.low) / 2.0
    requires entry.count == if cumulative then RunningTotal(Owners(f, d), i) else 0
    ensures entry.(count := entry.count + CountOf(Owners(f, d), i)) == BinAt(f, d, cumulative, i)
  {
  }

  // ---------------------------------------------------------------------
  // Specification of `_filterBins`, `getBins` and `toSeparated`

  function EdgeValue(b: Bin, e: Edge): real {
    match e
    case LowEdge => b.low
    case MidEdge => b.mid
    case HighEdge => b.high
  }

  /**
   * PHP's `$a[$k] = $v` on an array with distinct keys: overwrite the
   * value in place when the key exists, append the entry otherwise.
   */
  function Put(m: seq<(string, nat)>, k: string, v: nat): (r: seq<(string, nat)>)
    ensures exists i :: 0 <= i < |r| && r[i] == (k, v)
    ensures |m| <= |r| <= |m| + 1
  {
    if m == [] then
      assert [(k, v)][0] == (k, v);
      [(k, v)]
    else if m[0].0 == k then
      assert ([(k, v)] + m[1..])[0] == (k, v);
      [(k, v)] + m[1..]
    else
      var rest := Put(m[1..], k, v);
      var i :| 0 <= i < |rest| && rest[i] == (k, v);
      assert ([m[0]] + rest)[i + 1] == (k, v);
      [m[0]] + rest
  }

  /** The `edge => count` array `_filterBins` builds, bin by bin. */
  function KeyedCounts(bins: seq<Bin>, e: Edge, show: real -> string): seq<(string, nat)>
  {
    if bins == [] then []
    else
      var last := bins[|bins| - 1];
      Put(KeyedCounts(bins[..|bins| - 1], e, show), show(EdgeValue(last, e)), last.count)
  }

  /** The result of `getBins(mode)` over the given bins. */
  function BinsView(bins: seq<Bin>, mode: int, show: real -> string): (r: Result<Bins>)
    ensures bins == [] ==> r == Err(NotCalculated)
    ensures r.Ok? <==> bins != [] && HISTOGRAM_ALL_BINS <= mode <= HISTOGRAM_HI_BINS
    ensures bins != [] && mode == HISTOGRAM_ALL_BINS ==> r == Ok(Full(bins))
    ensures bins != [] && mode == HISTOGRAM_LO_BINS ==> r == Ok(Keyed(KeyedCounts(bins, LowEdge, show)))
    ensures bins != [] && mode == HISTOGRAM_MID_BINS ==> r == Ok(Keyed(KeyedCounts(bins, MidEdge, show)))
    ensures bins != [] && mode == HISTOGRAM_HI_BINS ==> r == Ok(Keyed(KeyedCounts(bins, HighEdge, show)))
    ensures bins != [] && r.Err? ==> r.error == IncorrectBinMode
  {
    match ParseBinMode(bins != [], mode)
    case Err(e) => Err(e)
    case Ok(AllBins) => Ok(Full(bins))
    case Ok(EdgeView(e)) => Ok(Keyed(KeyedCounts(bins, e, show)))
  }

  function Header(sep: string): string {
    "# bin" + sep + "frequency"
  }

  /**
   * The lines `toSeparated` writes after the header, one per entry of the
   * view: `key{sep}value`. The all-bins view has the positions as keys
   * and arrays as values, which PHP renders as the word "Array".
   */
  function Rows(view: Bins, sep: string): seq<string>
  {
    match view
    case Full(bs) => seq(|bs|, i requires 0 <= i < |bs| => NatToString(i) + sep + "Array")
    case Keyed(es) => seq(|es|, i requires 0 <= i < |es| => es[i].0 + sep + NatToString(es[i].1))
  }

  /** The loop of `toSeparated` that renders the entries of the view, one line each. */
  method WriteRows(view: Bins, sep: string) returns (out: seq<string>)
    ensures out == Rows(view, sep)
  {
    ghost var rows := Rows(view, sep);
    out := [];
    match view {
      case Full(bs) =>
        for i := 0 to |bs|
          invariant out == rows[..i]
        {
          assert rows[..i + 1] == rows[..i] + [rows[i]];
          out := out + [NatToString(i) + sep + "Array"];
        }
      case Keyed(es) =>
        for i := 0 to |es|
          invariant out == rows[..i]
        {
          assert rows[..i + 1] == rows[..i] + [rows[i]];
          out := out + [es[i].0 + sep + NatToString(es[i].1)];
        }
    }
    assert rows[..|rows|] == rows;
  }

  // ---------------------------------------------------------------------

  class Histogram {
    var htype: Option<HistType>      // `_type`; unset after a refused type at construction
    var nbins: nat                   // `_nbins`
    var rangeLow: Option<real>       // `_rangeLow`, unset while null
    var rangeHigh: Option<real>      // `_rangeHigh`, unset while null
    var data: Option<seq<real>>      // `_data`, unset while null
    var bins: seq<Bin>               // `_bins`
    var stats: bool                  // whether a statistics engine is held in `_stats`
    var statsMode: Option<int>       // `_statsMode`

    ghost predicate Valid()
      reads this
    {
      && nbins > 2
      && (data.Some? ==> Sorted(data.value))
      && (bins != [] ==> data.Some?)
    }

    predicate IsCalculated()
      reads this
    {
      bins != []
    }

    /** What `_histogramData` returns: the stored samples it keeps, in order. */
    function InRangeData(): seq<real>
      reads this
      requires data.Some?
    {
      KeepInBounds(data.value, rangeLow, rangeHigh)
    }

    constructor (typeCode: int, nbinsArg: Scalar, lo: Option<real>, hi: Option<real>)
      ensures Valid()
      ensures ParseType(typeCode).Ok? ==> htype == Some(ParseType(typeCode).value)
      ensures ParseType(typeCode).Err? ==> htype == None
      ensures nbins == CoerceNbins(nbinsArg) && rangeLow == lo && rangeHigh == hi
      ensures data == None && bins == [] && !stats && statsMode == None
    {
      var t := ParseType(typeCode);
      htype := if t.Ok? then Some(t.value) else None;
      nbins := CoerceNbins(nbinsArg);
      rangeLow, rangeHigh := lo, hi;
      data, bins := None, [];
      stats, statsMode := false, None;
    }

    /** `setType`: store the type for a valid code, refuse any other code. */
    method SetType(code: int) returns (r: Result<()>)
      modifies this`htype
      ensures r.Ok? <==> code == HISTOGRAM_SIMPLE || code == HISTOGRAM_CUMMULATIVE
      ensures r.Ok? ==> htype == Some(ParseType(code).value)
      ensures r.Err? ==> r.error == WrongType && htype == old(htype)
    {
      var t := ParseType(code);
      if t.Ok? {
        htype := Some(t.value);
        r := Ok(());
      } else {
        r := Err(t.error);
      }
    }

    /** `setBinOptions`: coerce the bin count, store the bounds as given. */
    method SetBinOptions(nbinsArg: Scalar, lo: Option<real>, hi: Option<real>)
      modifies this`nbins, this`rangeLow, this`rangeHigh
      ensures nbins == CoerceNbins(nbinsArg) && rangeLow == lo && rangeHigh == hi
    {
      nbins := CoerceNbins(nbinsArg);
      rangeLow := lo;
      rangeHigh := hi;
    }

    method GetBinOptions() returns (o: BinOptions)
      ensures o == BinOptions(nbins, rangeLow, rangeHigh)
    {
      o := BinOptions(nbins, rangeLow, rangeHigh);
    }

    /** `_clear`: drop the statistics, the data and the bins; keep type, bin count and range. */
    method Clear()
      modifies this`stats, this`statsMode, this`data, this`bins
      ensures !stats && statsMode == None && data == None && bins == []
    {
      stats := false;
      statsMode := None;
      data := None;
      bins := [];
    }

    /**
     * `setData`: clear, check the argument, default the unset bounds to
     * the data's minimum and maximum, and keep the data sorted ascending.
     */
    method SetData(arg: DataArg) returns (r: Result<()>)
      requires Valid()
      modifies this`stats, this`statsMode, this`data, this`bins, this`rangeLow, this`rangeHigh
      ensures Valid()
      ensures !stats && statsMode == None && bins == []
      ensures arg.NotArray? ==> r == Err(NotAnArray) && data == None
      ensures arg.Items? && !AllNumeric(arg.items) ==> r == Err(NonNumericItem) && data == None
      ensures r.Ok? <==>
        arg.Items? && AllNumeric(arg.items) && (arg.items != [] || (old(rangeLow).Some? && old(rangeHigh).Some?))
      ensures r.Err? && r.error == EmptyData ==> data == Some([])
      ensures r.Err? ==> r.error in {NotAnArray, NonNumericItem, EmptyData}
      ensures r.Err? ==> rangeLow == old(rangeLow) && rangeHigh == old(rangeHigh)
      ensures r.Ok? ==> data == Some(SortAsc(Numbers(arg.items)))
      ensures r.Ok? && old(rangeLow).Some? ==> rangeLow == old(rangeLow)
      ensures r.Ok? && old(rangeLow).None? ==> rangeLow == Some(Min(Numbers(arg.items)))
      ensures r.Ok? && old(rangeHigh).Some? ==> rangeHigh == old(rangeHigh)
      ensures r.Ok? && old(rangeHigh).None? ==> rangeHigh == Some(Max(Numbers(arg.items)))
    {
      Clear();
      if arg.NotArray? {
        return Err(NotAnArray);
      }
      var items := arg.items;
      for k := 0 to |items|
        invariant forall i :: 0 <= i < k ==> IsNumeric(items[i])
      {
        if !IsNumeric(items[k]) {
          return Err(NonNumericItem);
        }
      }
      var values := Numbers(items);
      data := Some(values);
      if rangeLow.None? {
        if values == [] {
          return Err(EmptyData);
        }
        rangeLow := Some(Min(values));
      }
      if rangeHigh.None? {
        if values == [] {
          return Err(EmptyData);
        }
        rangeHigh := Some(Max(values));
      }
      data := Some(SortAsc(values));
      r := Ok(());
    }

    /** `getData`: the stored data, or an error while none is set. */
    method GetData() returns (r: Result<seq<real>>)
      ensures data.None? ==> r == Err(DataNotSet)
      ensures data.Some? ==> r == Ok(data.value)
    {
      if data.None? {
        r := Err(DataNotSet);
      } else {
        r := Ok(data.value);
      }
    }

    /** `_histogramData`: the stored samples inside `[rangeLow, rangeHigh]`. */
    method HistogramData() returns (r: seq<real>)
      requires data.Some?
      ensures r == InRangeData()
    {
      var s, lo, hi := data.value, rangeLow, rangeHigh;
      r := [];
      for k := 0 to |s|
        invariant r == KeepInBounds(s[..k], lo, hi)
      {
        var v := s[k];
        assert s[..k + 1][..k] == s[..k] && s[..k + 1][k] == v;
        var below := lo.Some? && v < lo.value;
        var above := if hi.Some? then v > hi.value else v != 0.0;
        if !(below || above) {
          r := r + [v];
        }
      }
      assert s[..|s|] == s;
    }

    /** `getHistogramData`: the in-range data, or an error while no data is set. */
    method GetHistogramData() returns (r: Result<seq<real>>)
      ensures data.None? ==> r == Err(DataNotSet)
      ensures data.Some? ==> r == Ok(InRangeData())
    {
      if data.None? {
        r := Err(DataNotSet);
      } else {
        var d := HistogramData();
        r := Ok(d);
      }
    }

    /**
     * `calculate`: rebuild bins `0 .. nbins-1` over the in-range data,
     * handing every sample to the first bin that accepts it.
     */
    method Calculate(mode: int)
      requires Valid() && data.Some? && rangeLow.Some? && rangeHigh.Some?
      modifies this`bins, this`stats, this`statsMode
      ensures Valid() && IsCalculated()
      ensures stats && statsMode == Some(mode)
      ensures bins == Binned(LayoutOf(rangeLow.value, rangeHigh.value, nbins), InRangeData(),
                             htype == Some(Cummulative), old(bins))
    {
      stats := true;
      statsMode := Some(mode);
      var lo, hi := rangeLow.value, rangeHigh.value;
      var delta := (hi - lo) / (nbins as real);
      var d := HistogramData();
      ghost var f := LayoutOf(lo, hi, nbins);
      assert f == Layout(lo, delta, nbins);
      ghost var prev := bins;
      FillBins(f, d, lo, delta, nbins);
      assert |bins| >= nbins by {
        assert |Binned(f, d, htype == Some(Cummulative), prev)| >= f.n;
      }
    }

    /**
     * The outer loop of `calculate`: rewrite bins `0 .. n-1` in order,
     * handing every sample to the first bin that accepts it; bins past
     * `n` from an earlier calculation stay.
     */
    method FillBins(ghost f: Layout, d: seq<real>, lo: real, delta: real, n: nat)
      requires f == Layout(lo, delta, n)
      modifies this`bins
      ensures bins == Binned(f, d, htype == Some(Cummulative), old(bins))
    {
      var cumm: nat := 0;
      var ignoreList: seq<nat> := [];
      ghost var cumulative := htype == Some(Cummulative);
      ghost var owners := Owners(f, d);
      ghost var prev := bins;
      for i := 0 to n
        invariant |bins| == if |prev| > i then |prev| else i
        invariant forall b :: 0 <= b < i ==> bins[b] == BinAt(f, d, cumulative, b)
        invariant forall b :: i <= b < |bins| ==> bins[b] == prev[b]
        invariant forall k :: 0 <= k < |d| ==>
          (k in ignoreList <==> owners[k].Some? && owners[k].value < i)
        invariant cumm == if cumulative then RunningTotal(owners, i) else 0
      {
        ignoreList, cumm := PassBin(f, d, i, lo, delta, ignoreList, cumm);
      }
      RewrittenBins(f, d, cumulative, prev, bins);
    }

    /**
     * One pass of the outer loop of `calculate`, for bin `i`: lay out the
     * bin at position `i`, starting from the running total in cumulative
     * mode, then count the samples it claims.
     */
    method PassBin(ghost f: Layout, d: seq<real>, i: nat, lo: real, delta: real,
                   ignoreIn: seq<nat>, cummIn: nat) returns (ignoreList: seq<nat>, cumm: nat)
      requires i < f.n && f.low == lo && f.delta == delta && i <= |bins|
      requires forall k :: 0 <= k < |d| ==>
        (k in ignoreIn <==> Owners(f, d)[k].Some? && Owners(f, d)[k].value < i)
      requires cummIn == if htype == Some(Cummulative) then RunningTotal(Owners(f, d), i) else 0
      modifies this`bins
      ensures |bins| == if |old(bins)| > i then |old(bins)| else i + 1
      ensures bins[i] == BinAt(f, d, htype == Some(Cummulative), i)
      ensures forall b :: 0 <= b < |bins| && b != i ==> bins[b] == old(bins)[b]
      ensures forall k :: 0 <= k < |d| ==>
        (k in ignoreList <==> Owners(f, d)[k].Some? && Owners(f, d)[k].value <= i)
      ensures cumm == if htype == Some(Cummulative) then RunningTotal(Owners(f, d), i + 1) else 0
    {
      var entry := Bin(Low(lo, delta, i), High(lo, delta, i), Mid(lo, delta, i),
                       if htype == Some(Cummulative) then cummIn else 0);
      if i < |bins| {
        bins := bins[i := entry];
      } else {
        bins := bins + [entry];
      }
      ignoreList, cumm := FillBin(f, d, i, entry.low, entry.high, ignoreIn, cummIn);
      FilledBin(f, d, htype == Some(Cummulative), i, entry);
    }

    /**
     * The inner loop of `calculate` for bin `i`: the bin takes every
     * sample it accepts that no lower bin has taken, raising its count
     * (and the running total in cumulative mode) and marking the sample.
     */
    method FillBin(ghost f: Layout, d: seq<real>, i: nat, loBin: real, hiBin: real,
                   ignoreIn: seq<nat>, cummIn: nat) returns (ignoreList: seq<nat>, cumm: nat)
      requires i < f.n && i < |bins|
      requires loBin == Low(f.low, f.delta, i) && hiBin == High(f.low, f.delta, i)
      requires forall k :: 0 <= k < |d| ==>
        (k in ignoreIn <==> Owners(f, d)[k].Some? && Owners(f, d)[k].value < i)
      modifies this`bins
      ensures |bins| == old(|bins|)
      ensures forall b :: 0 <= b < |bins| && b != i ==> bins[b] == old(bins[b])
      ensures bins[i] == old(bins[i]).(count := old(bins[i]).count + CountOf(Owners(f, d), i))
      ensures forall k :: 0 <= k < |d| ==>
        (k in ignoreList <==> Owners(f, d)[k].Some? && Owners(f, d)[k].value <= i)
      ensures cumm == cummIn + (if htype == Some(Cummulative) then CountOf(Owners(f, d), i) else 0)
    {
      ghost var owners := Owners(f, d);
      ignoreList, cumm := ignoreIn, cummIn;
      for j := 0 to |d|
        invariant |bins| == old(|bins|)
        invariant forall b :: 0 <= b < |bins| && b != i ==> bins[b] == old(bins[b])
        invariant bins[i] == old(bins[i]).(count := old(bins[i]).count + CountOf(owners[..j], i))
        invariant forall k :: 0 <= k < |d| ==>
          (k in ignoreList <==> owners[k].Some? && (owners[k].value < i || (owners[k].value == i && k < j)))
        invariant cumm == cummIn + (if htype == Some(Cummulative) then CountOf(owners[..j], i) else 0)
      {
        CountOfExtend(owners, j, i);
        OwnerStep(f, d, i, j);
        if !(ignoreList != [] && j in ignoreList) {
          var inRange;
          if j == 0 {
            inRange := loBin <= d[j] && hiBin >= d[j];
          } else {
            inRange := loBin < d[j] && hiBin >= d[j];
          }
          if inRange {
            bins := bins[i := bins[i].(count := bins[i].count + 1)];
            if htype == Some(Cummulative) {
              cumm := cumm + 1;
            }
            ignoreList := ignoreList + [j];
          }
        }
      }
      assert owners[..|d|] == owners;
    }
    /** `getDataStats`: the statistics request over all data, once calculated. */
    method GetDataStats() returns (r: Result<StatsQuery<seq<real>>>)
      requires Valid()
      ensures !IsCalculated() ==> r == Err(NotCalculated)
      ensures IsCalculated() ==> r == Ok(StatsQuery(data.value, statsMode))
    {
      if IsCalculated() {
        r := Ok(StatsQuery(data.value, statsMode));
      } else {
        r := Err(NotCalculated);
      }
    }

    /** `getHistogramDataStats`: the statistics request over the in-range data, once calculated. */
    method GetHistogramDataStats() returns (r: Result<StatsQuery<seq<real>>>)
      requires Valid()
      ensures !IsCalculated() ==> r == Err(NotCalculated)
      ensures IsCalculated() ==> r == Ok(StatsQuery(InRangeData(), statsMode))
    {
      if IsCalculated() {
        var d := HistogramData();
        r := Ok(StatsQuery(d, statsMode));
      } else {
        r := Err(NotCalculated);
      }
    }

    /** `_filterBins`: one `edge => count` entry per bin, later bins overwriting equal keys. */
    method FilterBins(e: Edge, show: real -> string) returns (entries: seq<(string, nat)>)
      ensures entries == KeyedCounts(bins, e, show)
    {
      entries := [];
      for k := 0 to |bins|
        invariant entries == KeyedCounts(bins[..k], e, show)
      {
        assert bins[..k + 1][..k] == bins[..k];
        entries := Put(entries, show(EdgeValue(bins[k], e)), bins[k].count);
      }
      assert bins[..|bins|] == bins;
    }

    /** `getBins`: the bins or a filtered view of them, once calculated. */
    method GetBins(mode: int, show: real -> string) returns (r: Result<Bins>)
      ensures r == BinsView(bins, mode, show)
    {
      var v := ParseBinMode(IsCalculated(), mode);
      match v
      case Err(e) =>
        r := Err(e);
      case Ok(AllBins) =>
        r := Ok(Full(bins));
      case Ok(EdgeView(e)) =>
        var entries := FilterBins(e, show);
        r := Ok(Keyed(entries));
    }

    /**
     * `toSeparated`: the header line, then one `key{sep}value` line per
     * entry of the requested view, each line ending in a newline.
     */
    method ToSeparated(mode: int, sep: string, show: real -> string) returns (r: Result<string>)
      ensures BinsView(bins, mode, show).Err? ==> r == Err(BinsView(bins, mode, show).error)
      ensures BinsView(bins, mode, show).Ok? ==>
        r == Ok(Lines([Header(sep)] + Rows(BinsView(bins, mode, show).value, sep)))
    {
      var view := GetBins(mode, show);
      if view.Err? {
        return Err(view.error);
      }
      var rows := WriteRows(view.value, sep);
      var out := [Header(sep)] + rows;
      ImplodeThenNewline(out);
      r := Ok(Implode("\n", out) + "\n");
    }

    /**
     * `getHistogramInfo`: type label, both statistics requests, bins, bin
     * count and range, once calculated. The bin count is always above 2
     * here, so the base class's "no bin count" refusal never applies.
     */
    method GetHistogramInfo() returns (r: Result<Info<Bin, nat, Option<real>, StatsQuery<seq<real>>>>)
      requires Valid()
      ensures !IsCalculated() ==> r == Err(NotCalculated)
      ensures IsCalculated() ==> r == Ok(Info(TypeName(htype),
        StatsQuery(data.value, statsMode), StatsQuery(InRangeData(), statsMode),
        bins, nbins, rangeLow, rangeHigh))
    {
      var ds := GetDataStats();
      if ds.Err? {
        return Err(ds.error);
      }
      var hs := GetHistogramDataStats();
      r := Ok(Info(TypeName(htype), ds.value, hs.value, bins, nbins, rangeLow, rangeHigh));
    }
  }
}
