/**
 * What the two histogram classes share through their common base class:
 * the type and bin-view codes, the type check of `setType`, the
 * guard-and-dispatch of `getBins`, the type label of `getHistogramInfo`,
 * and the record shapes it returns. The state-changing members of the
 * base class (`setType`, `setBinOptions`, `_clear`) are methods of each
 * concrete class, built on these functions.
 */
module AbstractHistogram {
  import opened Values

  const HISTOGRAM_ALL_BINS: int := 1
  const HISTOGRAM_MID_BINS: int := 2
  const HISTOGRAM_LO_BINS: int := 3
  const HISTOGRAM_HI_BINS: int := 4

  const HISTOGRAM_SIMPLE: int := 1
  const HISTOGRAM_CUMMULATIVE: int := 2

  datatype HistType = Simple | Cummulative

  /** Which edge of a bin keys a filtered view of the bins. */
  datatype Edge = LowEdge | MidEdge | HighEdge

  /** What `getBins` hands back: the bins themselves, or a view keyed by an edge. */
  datatype BinView = AllBins | EdgeView(edge: Edge)

  /**
   * The check of `setType`: only the two type codes are accepted, and
   * every other code is refused with the same error.
   */
  function ParseType(code: int): (r: Result<HistType>)
    ensures r.Ok? <==> code == HISTOGRAM_SIMPLE || code == HISTOGRAM_CUMMULATIVE
    ensures r == Ok(Cummulative) <==> code == HISTOGRAM_CUMMULATIVE
    ensures r.Err? ==> r.error == WrongType
  {
    if code == HISTOGRAM_SIMPLE then Ok(Simple)
    else if code == HISTOGRAM_CUMMULATIVE then Ok(Cummulative)
    else Err(WrongType)
  }

  /**
   * The dispatch of `getBins`: with no bins every mode fails as "not
   * calculated"; otherwise the all-bins mode selects the bins, the three
   * edge modes select a filtered view and any other mode fails.
   */
  function ParseBinMode(calculated: bool, mode: int): (r: Result<BinView>)
    ensures !calculated ==> r == Err(NotCalculated)
    ensures calculated ==> (r.Ok? <==> HISTOGRAM_ALL_BINS <= mode <= HISTOGRAM_HI_BINS)
    ensures calculated && r.Err? ==> r.error == IncorrectBinMode
    ensures r == Ok(AllBins) <==> calculated && mode == HISTOGRAM_ALL_BINS
    ensures r == Ok(EdgeView(LowEdge)) <==> calculated && mode == HISTOGRAM_LO_BINS
    ensures r == Ok(EdgeView(MidEdge)) <==> calculated && mode == HISTOGRAM_MID_BINS
    ensures r == Ok(EdgeView(HighEdge)) <==> calculated && mode == HISTOGRAM_HI_BINS
  {
    if !calculated then Err(NotCalculated)
    else if mode == HISTOGRAM_ALL_BINS then Ok(AllBins)
    else if mode == HISTOGRAM_MID_BINS then Ok(EdgeView(MidEdge))
    else if mode == HISTOGRAM_LO_BINS then Ok(EdgeView(LowEdge))
    else if mode == HISTOGRAM_HI_BINS then Ok(EdgeView(HighEdge))
    else Err(IncorrectBinMode)
  }

  /**
   * The `type` entry of `getHistogramInfo`: the cumulative label exactly
   * for the cumulative type, the plain label for every other stored type
   * (including an unset one).
   */
  function TypeName(t: Option<HistType>): (s: string)
    ensures s == "cummulative frequency" <==> t == Some(Cummulative)
    ensures s == "histogram" <==> t != Some(Cummulative)
  {
    if t == Some(Cummulative) then "cummulative frequency" else "histogram"
  }

  /**
   * A request to the statistics engine: the data set it is given and the
   * detail mode it is asked for. The engine's results are not modelled.
   */
  datatype StatsQuery<D> = StatsQuery(data: D, mode: Option<int>)

  /** The record returned by `getHistogramInfo`. */
  datatype Info<B, N, R, S> = Info(
    histType: string,
    dataStats: S,
    histDataStats: S,
    bins: seq<B>,
    nbins: N,
    rangeLow: R,
    rangeHigh: R)
}
