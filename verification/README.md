# Math_Histogram in Dafny

A model of the binning engine of the Math_Histogram library. It covers the one-dimensional
frequency histogram (`Histogram`), the bivariate histogram (`Histogram3D`), and the base class
they share (`AbstractHistogram`).

A histogram object stores five things:

- a type: simple or cumulative;
- bin options: a bin count and a low and a high bound (one of each per axis in two dimensions);
- the data;
- the bins produced by `calculate`;
- the request it will make of the statistics engine.

Each class is a Dafny `class` with those fields. The methods that change state (`setType`,
`setBinOptions`, `setData`, `_clear`, `calculate`) update the fields in place. The queries
(`getData`, `getHistogramData`, `getBins`, `_filterBins`, `toSeparated`, `getHistogramInfo`, the
statistics guards) return `Result` values. Both PEAR error objects and thrown exceptions become
`Err` with the error kind.

`calculate` keeps the shape of the code: a loop over bins (over `x` bins and `y` bins in two
dimensions) and, inside it, a loop over the samples. The samples are filtered through a "claimed"
list, and cumulative mode keeps a running total. Each loop is proved against a specification
function.

**How counts are specified.** Each sample has an *owner*: the first bin (or cell, in row-major
order) whose acceptance rule takes it.

- `Claims.CountOf` is a bin's frequency: the number of samples it owns.
- `Claims.RunningTotal` is the number of samples owned by the bins before a given one.
- The claimed list after the pass of bin `i` holds exactly the samples owned by bins `0 .. i`.
- `Histogram.Binned` is the bin list after a one-dimensional calculation. Bins past the new count
  that an earlier calculation left there are kept, because the code never resets `_bins` there.
- `Histogram3D.Cells` is the cell list after a two-dimensional calculation. Cell `(i, j)` sits at
  position `i * NY + j`.

**Acceptance rules are those of the code.**

- **One dimension.** A bin is open on its low edge (`lo < v <= hi`), except that the sample at
  position 0 of the in-range data is accepted on the low edge too. The position used is the
  sample's, not the bin's.
- **Two dimensions.** The first bin of each axis is closed on its low edge, and every other bin
  is `lo < v <= hi`.

The cumulative count of the two-dimensional class is `freq + cumm - 1` for a non-empty cell and
zero for an empty one, as written. Both behaviours are reproduced as they are; the Findings section
compares them with the evidently intended rules and proves those too.

**Modules.**

| module | contents |
|---|---|
| `Values` | PHP scalars, `Option`, `Result`, error kinds, string joining |
| `Seqs` | minimum, maximum, sort, range filter |
| `Grid` | bin edges and the iteration count of a loop bounded by a real number |
| `Claims` | frequencies and running totals of owner lists |
| `AbstractHistogram` | type codes, mode dispatch, type label |
| `Histogram`, `HistogramFacts` | the one-dimensional class and its properties |
| `Histogram3D`, `Histogram3DFacts` | the two-dimensional class and its properties |

## Model

| member | source | states |
|---|---|---|
| AbstractHistogram.ParseType | Histogram/AbstractHistogram.php:104-113 | a type code is accepted exactly when it is 1 (simple) or 2 (cumulative); 2 gives the cumulative type; every other code is refused as a wrong type |
| AbstractHistogram.ParseBinMode | Histogram/AbstractHistogram.php:193-212 | with no bins every mode is refused as not calculated; otherwise modes 1..4 are accepted and any other mode is refused as an incorrect mode; mode 1 selects all bins, and 2, 3, 4 select the mid, low and high views |
| AbstractHistogram.TypeName | Histogram/AbstractHistogram.php:229-231 | the label is "cummulative frequency" exactly for the cumulative type and "histogram" for every other type, including an unset one |
| Seqs.Min | src/Histogram/Histogram.php:92-94 | the value taken for an unset low bound is an element of the data and no element is below it |
| Seqs.Max | src/Histogram/Histogram.php:96-98 | the value taken for an unset high bound is an element of the data and no element exceeds it |
| Seqs.SortAsc | src/Histogram/Histogram.php:100 | the stored data is sorted ascending and is a permutation of the input |
| Seqs.InRange | src/Histogram/Histogram.php:353-366 | every input value inside the closed range is kept as often as it occurs, and no other value is kept; the result lies within the bounds and is never longer than the input; sorted input gives sorted output |
| Seqs.InRangeConcat | src/Histogram/Histogram.php:353-366 | the values are filtered one by one in their order: filtering a concatenation gives the concatenation of the filtered parts |
| Values.ImplodeThenNewline | src/Histogram/Histogram.php:220 | joining the lines with a newline and adding one more newline ends every line, the last included, with a newline |
| Values.LinesCount | src/Histogram/Histogram.php:220 | lines free of line breaks, joined and terminated by newlines, give exactly one line break per line |
| Grid.Contiguous | src/Histogram/Histogram.php:127-131 | each bin ends where the next one starts, is `delta` wide, and has its mid point between its edges exactly when `delta` is not negative |
| Grid.ItersBound | PEAR/Histogram/Histogram3D.php:124-129 | a loop `for ($i = 0; $i < $n; $i++)` over a real bin count runs exactly `Iters(n)` times: index `i` is reached exactly when `i < n` |
| Grid.InBinExists | PEAR/Histogram/Histogram3D.php:145-155 | under the bin-index edge rule, a value between the axis's low bound and its last edge lies in some bin |
| Grid.InBinExclusive | PEAR/Histogram/Histogram3D.php:145-155 | under the bin-index edge rule, a value accepted by one bin is refused by every later bin |
| Claims.RunningTotalCountsClaims | src/Histogram/Histogram.php:132-153 | the running total before bin `b` is the number of samples claimed by bins below `b`, and never exceeds the number of samples |
| Claims.RunningTotalMonotone | src/Histogram/Histogram.php:132-153 | the running total never decreases from one bin to a later one |
| Claims.ClaimedCountAll | PEAR/Histogram/Histogram3D.php:137-162 | when every sample has an owner, the number of claimed samples is the number of samples |
| Histogram.CoerceNbins | src/Histogram/Histogram.php:40 | the stored bin count is the argument when it is an integer above 2, and 10 otherwise; it is always above 2 |
| Histogram.LayoutOf | src/Histogram/Histogram.php:119-128 | the grid starts at the low bound, has `nbins` bins, and its last edge is the high bound |
| Histogram.FirstBin | src/Histogram/Histogram.php:138-156 | a sample's owner is the lowest bin accepting it under the sample-position rule; no bin below it accepts it; with no owner, no bin accepts it |
| Histogram.OwnerStep | src/Histogram/Histogram.php:139-156 | in the pass of bin `i`, a sample is taken exactly when it is not yet on the claimed list and bin `i` accepts it, that is, exactly when bin `i` owns it |
| Histogram.FilledBin | src/Histogram/Histogram.php:129-153 | a bin laid out with its edges and starting from the running total (cumulative) or from zero (simple), plus its own frequency, is the specified bin |
| Histogram.RewrittenBins | src/Histogram/Histogram.php:126-158 | rewriting bins `0 .. n-1` with their specified contents and keeping the later entries gives the specified bin list |
| Histogram.Put | src/Histogram/Histogram.php:339 | assigning a key in an array leaves the entry `(key, value)` in it and adds at most one entry |
| Histogram.BinsView | Histogram/AbstractHistogram.php:193-212 | with no bins the result is "not calculated"; otherwise mode 1 gives the bins unchanged, modes 2, 3, 4 give the edge-keyed view on the mid, low and high edge, and every other mode is refused |
| Histogram.Histogram.constructor | src/Histogram/Histogram.php:21-26 | a valid type code is stored and a refused one leaves the type unset; the bin count is coerced, the bounds are stored as given, and there is no data, no bins and no statistics |
| Histogram.Histogram.SetType | Histogram/AbstractHistogram.php:104-113 | succeeds exactly for codes 1 and 2 and stores their type; on refusal the stored type is unchanged |
| Histogram.Histogram.SetBinOptions | src/Histogram/Histogram.php:37-43 | the bin count becomes the coerced argument; both bounds are stored as given, unset included |
| Histogram.Histogram.GetBinOptions | src/Histogram/Histogram.php:54-62 | returns the stored bin count and both bounds |
| Histogram.Histogram.Clear | Histogram/AbstractHistogram.php:253-261 | statistics, statistics mode and data become unset and the bins empty; type, bin count and bounds are outside the frame and so unchanged |
| Histogram.Histogram.SetData | src/Histogram/Histogram.php:77-102 | clears first; refuses a non-array and a non-numeric item with data unset; on success the data is the input sorted ascending, an unset bound becomes the data's minimum or maximum, and a set bound is kept; an empty input with an unset bound is refused after being stored |
| Histogram.Histogram.GetData | Histogram/AbstractHistogram.php:154-163 | refused while no data is set; otherwise the stored data |
| Histogram.KeepInBounds | src/Histogram/Histogram.php:353-366 | every stored sample that is neither below the low bound nor above the high bound is kept as often as it occurs, and no other sample is kept. An unset bound is PHP's null: nothing is below it and every non-zero number is above it. With both bounds set this is the closed-range filter `Seqs.InRange` |
| Histogram.KeepInBoundsConcat | src/Histogram/Histogram.php:353-366 | the samples are kept one by one in their order: filtering a concatenation gives the concatenation of the filtered parts |
| Histogram.Histogram.HistogramData | src/Histogram/Histogram.php:353-366 | the loop returns exactly the samples `KeepInBounds` keeps, in their order, whether or not the bounds are set |
| Histogram.Histogram.GetHistogramData | Histogram/AbstractHistogram.php:175-184 | refused while no data is set; otherwise the in-range data |
| Histogram.Histogram.Calculate | src/Histogram/Histogram.php:113-160 | the bins become `Binned`: bin `i` has the edges of the grid and either its frequency or the running total through it, every sample counted by its first accepting bin, and later entries kept; statistics are recorded with the requested mode |
| Histogram.Histogram.PassBin | src/Histogram/Histogram.php:126-157 | one pass of the outer loop sets entry `i` to its specified bin, changes no other entry, extends the claimed list to the samples owned by bins `0 .. i`, and advances the running total |
| Histogram.Histogram.FillBin | src/Histogram/Histogram.php:138-157 | the inner loop adds exactly the bin's frequency to its count (and to the running total in cumulative mode) and claims exactly the samples the bin owns |
| Histogram.Histogram.GetDataStats | src/Histogram/Histogram.php:168-178 | refused while not calculated; otherwise the statistics request over all stored data with the stored mode |
| Histogram.Histogram.GetHistogramDataStats | src/Histogram/Histogram.php:186-195 | refused while not calculated; otherwise the statistics request over the in-range data |
| Histogram.Histogram.FilterBins | src/Histogram/Histogram.php:329-343 | the loop builds the edge-keyed array in which each bin's edge key is assigned its count, in bin order |
| Histogram.Histogram.GetBins | Histogram/AbstractHistogram.php:193-212 | returns the view `BinsView` specifies for the stored bins and the mode |
| Histogram.Histogram.ToSeparated | src/Histogram/Histogram.php:206-221 | a refused view is passed on; otherwise the text is the header `# bin{sep}frequency` followed by one `key{sep}value` line per entry, each line ending in a newline |
| HistogramFacts.SeparatedLineCount | src/Histogram/Histogram.php:206-221 | when neither the separator nor a key holds a line break, the text has exactly one line per entry of the view plus the header line |
| Histogram.Histogram.GetHistogramInfo | Histogram/AbstractHistogram.php:221-245 | refused while not calculated; otherwise the type label, both statistics requests, the stored bins, bin count and bounds |
| HistogramFacts.BinAtEdges | src/Histogram/Histogram.php:127-131 | bin `i` starts `i` widths above the low bound, is one width wide, ends where bin `i + 1` starts, and has its mid point between its edges |
| HistogramFacts.BinnedLayout | src/Histogram/Histogram.php:126-131 | a calculation lays out `n` contiguous bins from the low bound to the high bound; positions from `n` on keep the earlier entries |
| HistogramFacts.CalculateIdempotent | src/Histogram/Histogram.php:113-160 | calculating again over the same data and options leaves the bins as they are |
| HistogramFacts.OwnersBelowN | src/Histogram/Histogram.php:126-145 | every claimed sample is claimed by one of the `n` bins |
| HistogramFacts.SimplePrefix | src/Histogram/Histogram.php:132-153 | in simple mode the counts of the first `k` bins add up to the number of samples they claim |
| HistogramFacts.SimpleTotal | src/Histogram/Histogram.php:124-156 | in simple mode the counts add up to the number of claimed samples, which is at most the number of in-range samples: no sample is counted twice |
| HistogramFacts.CumulativeCounts | src/Histogram/Histogram.php:132-155 | in cumulative mode bin `i` holds the sum of the simple counts of bins `0 .. i`; counts never decrease, and the last equals the number of claimed samples |
| HistogramFacts.DeltaSign | src/Histogram/Histogram.php:119 | the bin width is not negative for an ordered range, and positive for a non-empty one |
| HistogramFacts.OwnerAsWritten | src/Histogram/Histogram.php:143-147 | an in-range sample is claimed exactly when it is the first in-range sample or differs from the low bound |
| HistogramFacts.ClaimedAsWritten | src/Histogram/Histogram.php:124-156 | over in-range data the code claims every sample except repeated occurrences of the low bound |
| HistogramFacts.SimpleTotalAsWritten | src/Histogram/Histogram.php:124-156 | the simple counts add up to the number of in-range samples less the repeated occurrences of the low bound |
| HistogramFacts.RepeatedLowDropped | src/Histogram/Histogram.php:143-147 | for data `[0, 0, 1]`, range `[0, 1]` and three bins, the simple counts add up to 2 while 3 samples are in range |
| HistogramFacts.FirstInBin | src/Histogram/Histogram.php:143-147 | under the bin-index rule, the owner is the lowest bin containing the value; with no owner, no bin contains it |
| HistogramFacts.BinIndexOwner | src/Histogram/Histogram.php:143-147 | under the bin-index rule, an in-range value has an owner, and that owner is the one bin containing it |
| HistogramFacts.BinIndexCountsAll | src/Histogram/Histogram.php:124-156 | under the bin-index rule every in-range sample is claimed |
| HistogramFacts.RepeatedLowKept | src/Histogram/Histogram.php:143-147 | under the bin-index rule, the data `[0, 0, 1]` has all three samples claimed |
| HistogramFacts.InRangeAll | src/Histogram/Histogram.php:353-366 | filtering data that already lies in the range keeps all of it |
| HistogramFacts.DefaultRangeKeepsAll | src/Histogram/Histogram.php:92-100 | when both bounds default to the data's extent, the in-range data is all of the sorted data |
| HistogramFacts.PutFresh | src/Histogram/Histogram.php:339 | assigning a key not yet in the array appends the entry |
| HistogramFacts.PutReplaces | src/Histogram/Histogram.php:339 | assigning a key already in the array replaces its value where it stands |
| HistogramFacts.KeyedCountsDistinct | src/Histogram/Histogram.php:329-343 | when the bins' edges print as distinct keys, the view has one `(key, count)` entry per bin, in bin order |
| Histogram3D.FilterPairs | PEAR/Histogram/Histogram3D.php:369-383 | the kept pairs all lie in the closed box; every input pair inside it is kept as often as it occurs and no other pair is kept; never more than the input |
| Histogram3D.FilterPairsConcat | PEAR/Histogram/Histogram3D.php:369-383 | the pairs are filtered one by one in their order: filtering the concatenation of two lists of pairs gives the concatenation of the filtered lists |
| Histogram3D.FilterSnoc | PEAR/Histogram/Histogram3D.php:371-381 | a pair added at the end of the list is kept at the end of the result when it lies in the box, and dropped otherwise |
| Histogram3D.FilterStep | PEAR/Histogram/Histogram3D.php:371-381 | considering one more pair appends it when both coordinates lie in their ranges and changes nothing otherwise |
| Histogram3D.KeepInBox | PEAR/Histogram/Histogram3D.php:369-383 | the filter loop returns the pairs `FilterPairs` specifies |
| Histogram3D.MinMax | PEAR/Histogram/Histogram3D.php:254-258 | both results are elements of the coordinate list, and every element lies between them |
| Histogram3D.GridOf | PEAR/Histogram/Histogram3D.php:114-127 | an axis starts at its low bound, has as many bins as its loop runs, and has width times bin count equal to the range |
| Histogram3D.FirstCell | PEAR/Histogram/Histogram3D.php:137-162 | a pair's owner is the first cell in row-major order that accepts it on both axes; no earlier cell accepts it; with no owner, no cell accepts it |
| Histogram3D.CellOwnerStep | PEAR/Histogram/Histogram3D.php:138-162 | in the pass of cell `(i, j)`, a pair is taken exactly when it is not yet on the claimed list and the cell accepts it, that is, exactly when the cell owns it |
| Histogram3D.CountCell | PEAR/Histogram/Histogram3D.php:137-158 | the innermost loop counts exactly the cell's frequency, claims exactly the pairs owned by cells up to it, and adds the frequency to the running total |
| Histogram3D.BuiltCell | PEAR/Histogram/Histogram3D.php:159-173 | a cell built from the two axes' bins, their indices and the count the code derives extends the built cells by the specified cell |
| Histogram3D.FilterCells | PEAR/Histogram/Histogram3D.php:267-283 | one entry per cell, in the same order, with the selected edge on each axis and the cell's count |
| Histogram3D.BinsView | Histogram/AbstractHistogram.php:193-212 | with no cells the result is "not calculated"; otherwise mode 1 gives the cells unchanged, modes 2, 3, 4 give the filtered view on the mid, low and high edge, and every other mode is refused |
| Histogram3D.Histogram3D.constructor | PEAR/Histogram/Histogram3D.php:31-40 | a valid type code is stored; valid options set both bounds and the bin counts; invalid or default options leave them unset; no data, bins or statistics |
| Histogram3D.Histogram3D.SetType | Histogram/AbstractHistogram.php:104-113 | succeeds exactly for codes 1 and 2 and stores their type; on refusal the stored type is unchanged |
| Histogram3D.Histogram3D.SetBinOptions | PEAR/Histogram/Histogram3D.php:50-59 | succeeds exactly for options `_validBinOptions` accepts, storing low, high and bin counts per axis; otherwise refused with the old options kept |
| Histogram3D.Histogram3D.Clear | Histogram/AbstractHistogram.php:253-261 | statistics, statistics mode and data become unset and the bins empty |
| Histogram3D.Histogram3D.ValidData | PEAR/Histogram/Histogram3D.php:329-349 | true exactly for an array of two entries `x` and `y`, arrays of the same length whose items are all numeric |
| Histogram3D.Histogram3D.SetData | PEAR/Histogram/Histogram3D.php:74-98 | clears first; invalid data is refused with data unset; valid data is stored unsorted; empty lists are refused after being stored; otherwise each unset bound becomes the data's extent and unset bin counts become 10 per axis, and set values are kept |
| Histogram3D.Histogram3D.FillDefaults | PEAR/Histogram/Histogram3D.php:83-95 | unset bounds become the per-axis minima and maxima, unset bin counts become 10 and 10, and set values are kept |
| Histogram3D.Histogram3D.GetData | Histogram/AbstractHistogram.php:154-163 | refused while no data is set; otherwise the stored pairs |
| Histogram3D.Histogram3D.HistogramData | PEAR/Histogram/Histogram3D.php:359-384 | empty data has no extent and is refused; otherwise the stored pairs when the box is their extent, and the pairs inside the box otherwise |
| Histogram3D.Histogram3D.GetHistogramData | Histogram/AbstractHistogram.php:175-184 | refused while no data is set; otherwise what `_histogramData` returns |
| Histogram3D.Histogram3D.Calculate | PEAR/Histogram/Histogram3D.php:109-178 | the bins are reset and the statistics mode recorded first. An unset or zero bin count is refused as a division by zero, missing data as not set, and empty data as empty; otherwise the bins become `Cells`: `NX * NY` cells row by row, each with its two axis bins, its indices and its simple or as-written cumulative count |
| Histogram3D.Histogram3D.FillRow | PEAR/Histogram/Histogram3D.php:124-177 | one pass over an `x` bin appends the `NY` specified cells of that row, extends the claimed list to the pairs owned by those cells, and keeps the running total |
| Histogram3D.Histogram3D.AddCell | PEAR/Histogram/Histogram3D.php:129-176 | one pass over a `y` bin appends the specified cell and advances the claimed list and the running total past it |
| Histogram3D.Histogram3D.GetDataStats | PEAR/Histogram/Histogram3D.php:186-197 | refused while not calculated; otherwise one statistics request per coordinate list |
| Histogram3D.Histogram3D.GetHistogramDataStats | PEAR/Histogram/Histogram3D.php:205-217 | refused while not calculated; otherwise one statistics request per coordinate list of the in-box pairs |
| Histogram3D.Histogram3D.FilterBins | PEAR/Histogram/Histogram3D.php:267-283 | the loop builds the filtered view `FilterCells` specifies |
| Histogram3D.Histogram3D.GetBins | Histogram/AbstractHistogram.php:193-212 | returns the view `BinsView` specifies for the stored cells and the mode |
| Histogram3D.Histogram3D.ToSeparated | PEAR/Histogram/Histogram3D.php:228-244 | a refused view is passed on; otherwise the header `# x_bin{sep}y_bin{sep}frequency` then the values of each entry joined by the separator, each line ending in a newline |
| Histogram3DFacts.SeparatedLineCount | PEAR/Histogram/Histogram3D.php:228-244 | when neither the separator nor a rendered number holds a line break, the text has exactly one line per cell of the view plus the header line |
| Histogram3D.Histogram3D.GetHistogramInfo | Histogram/AbstractHistogram.php:221-245 | refused while no bin counts are set or not calculated; otherwise the type label, both statistics requests, the cells, bin counts and bounds |
| Histogram3DFacts.AxisBinShape | PEAR/Histogram/Histogram3D.php:125-134 | bin `b` of an axis starts `b` widths above the low bound, is one width wide, has its mid point halfway, and ends where bin `b + 1` starts |
| Histogram3DFacts.CellsLayout | PEAR/Histogram/Histogram3D.php:124-175 | a calculation has `NX * NY` cells, and cell `(i, j)` sits at position `i * NY + j` with `xbin = i`, `ybin = j` and the edges of bin `i` of X and bin `j` of Y |
| Histogram3DFacts.InBinUnique | PEAR/Histogram/Histogram3D.php:145-155 | a value lies in at most one bin of an axis |
| Histogram3DFacts.GridCovers | PEAR/Histogram/Histogram3D.php:114-115 | for a positive bin count and an ordered range, the axis has at least one bin, non-negative width, and reaches the high bound |
| Histogram3DFacts.CellOwnerExists | PEAR/Histogram/Histogram3D.php:137-162 | a pair within reach of both axes has an owner |
| Histogram3DFacts.AcceptingCell | PEAR/Histogram/Histogram3D.php:145-158 | a position whose cell accepts a pair is the position of cell `(i, j)` exactly when cell `(i, j)` accepts the pair |
| Histogram3DFacts.CellOwnerUnique | PEAR/Histogram/Histogram3D.php:137-162 | a pair within reach is owned by a cell, and that cell is the one cell whose two bins accept the pair |
| Histogram3DFacts.ClaimsAll | PEAR/Histogram/Histogram3D.php:137-162 | when every pair is within reach, every pair is claimed |
| Histogram3DFacts.CellPrefix | PEAR/Histogram/Histogram3D.php:156-171 | the simple counts of the first `c` cells add up to the running total before cell `c` |
| Histogram3DFacts.SimpleTotal | PEAR/Histogram/Histogram3D.php:156-171 | the simple counts of all cells add up to the number of claimed pairs: no pair is counted twice |
| Histogram3DFacts.InRangePairsInBox | PEAR/Histogram/Histogram3D.php:359-384 | every pair `_histogramData` returns lies in the box |
| Histogram3DFacts.CalculatedTotal | PEAR/Histogram/Histogram3D.php:109-178 | in simple mode, with positive bin counts and an ordered box, the counts add up to the number of pairs in the box |
| Histogram3DFacts.BoxReached | PEAR/Histogram/Histogram3D.php:114-127 | pairs inside the box are within reach of the grids laid out over it |
| Histogram3DFacts.CumulativeAsWritten | PEAR/Histogram/Histogram3D.php:159-166 | the cumulative count as written equals the running total through the cell exactly when the cell holds one pair or nothing has been claimed up to it |
| Histogram3DFacts.CorrectedCount | PEAR/Histogram/Histogram3D.php:159-166 | the corrected cumulative count is the running total before the cell plus the cell's frequency, hence at least the frequency |
| Histogram3DFacts.CumulativeIntended | PEAR/Histogram/Histogram3D.php:159-166 | the corrected cumulative counts are the running sums of the simple counts, never decrease, and end at the number of claimed pairs |
| Histogram3DFacts.DiagonalOwners | PEAR/Histogram/Histogram3D.php:137-162 | pairs `(0,0)`, `(1,1)`, `(2,2)`, `(3,3)` on a 2 x 2 grid over `[0, 3]` are owned by cells 0, 0, 3, 3 |
| Histogram3DFacts.DiagonalTotals | PEAR/Histogram/Histogram3D.php:156-160 | frequencies 2, 0, 0, 2 and running totals 2, 2, 2, 4 for those owners |
| Histogram3DFacts.DiagonalCounts | PEAR/Histogram/Histogram3D.php:159-166 | for those pairs the simple counts are 2, 0, 0, 2 and the cumulative counts as written are 3, 0, 0, 5 |
| Histogram3DFacts.DiagonalCorrected | PEAR/Histogram/Histogram3D.php:159-166 | for those pairs the corrected cumulative counts are 2, 2, 2, 4 |
| Histogram3DFacts.FilterAllInBox | PEAR/Histogram/Histogram3D.php:369-383 | filtering pairs that all lie in the box keeps them all, in order |
| Histogram3DFacts.EarlyReturnAgrees | PEAR/Histogram/Histogram3D.php:362-366 | returning the data unfiltered when the box is exactly its extent gives what the filter gives |

## Left out

- The printer layer, `printHistogram`, `_bar` and `generatePlot` (src/Histogram/Histogram.php:256-320) are left out: they produce output and format floats.
- `isValidHistogram` (src/Histogram/Histogram.php:231-235) is left out: it is a runtime class check.
- The statistics engine is not modelled. `getDataStats` and `getHistogramDataStats` return a `StatsQuery`: the data set and the mode the engine would be given. Its results are not computed.
- Floating point is modelled as `real`. Bin edges and widths are exact, so the rounding drift of the last edge is not captured.
- PHP's conversion of a float to a string is left out. It is the parameter `show`, used for the keys of the one-dimensional edge views and for the values written by the two-dimensional `toSeparated`.
- Type codes are compared as integers. PHP's loose `==` in `setType` would also accept, for example, the string "1" or `true`.
- Numeric strings are stored as the numbers they stand for. The stored array keeps neither the PHP type of each item nor its keys.
- The `_orig` field that `_clear` resets is left out: no core operation reads it.
- The base class's own `setBinOptions` (Histogram/AbstractHistogram.php:122-133) appears only through the two-dimensional class, which calls it after validating the options. Its non-array refusal is therefore covered by that class's refusal of invalid options. The one-dimensional class overrides it.
- PHP 8 semantics are assumed throughout. `min` or `max` of an empty array is an error, which becomes `EmptyData`. This applies to Histogram.Histogram.SetData, Histogram3D.Histogram3D.SetData, Histogram3D.Histogram3D.HistogramData, Histogram3D.Histogram3D.GetHistogramData and Histogram3D.Histogram3D.Calculate. Division by a zero or null bin count is an error, which becomes `DivisionByZero`. A number compares with null as a boolean.
- Histogram.Histogram.Calculate requires both bounds to be set and data to be present. PHP would otherwise compute bin edges from null and iterate over null.
- Histogram3D.Histogram3D.Calculate: calling it before `setData` makes PHP's `min` reject null with a type error. The model reports this as `DataNotSet`.
- PHP's default arguments are not modelled; every argument is passed explicitly. These are the constructors' type, bin count and bounds, `calculate`'s statistics mode, and `toSeparated`'s mode and separator.
- Histogram3D.Histogram3D.Calculate: when no pair lies in the box, PHP's `count` on the missing `x` list is left out. The model continues with empty lists and all-zero cells.
- Histogram3D.Histogram3D.HistogramData: when no pair lies in the box, `_histogramData` returns an array without the `x` and `y` keys. The model renders that empty box as two empty lists, `Pairs([], [])`. The same rendering reaches Histogram3D.Histogram3D.GetHistogramData, which in PHP returns a bare empty array. It also reaches Histogram3D.Histogram3D.GetHistogramDataStats and Histogram3D.Histogram3D.GetHistogramInfo, where PHP hands `null` (the missing list) to the statistics engine in place of an empty list.
- Histogram3D.Histogram3D.ToSeparated: the error branch returns an undefined variable. It is modelled as passing on the refusal of `getBins`.

## Findings

| source | as written | input that shows it | evidently intended | confidence | as-written member | corrected member |
|---|---|---|---|---|---|---|
| src/Histogram/Histogram.php:143-147 | the closed low edge is chosen by `$j == 0`, the position of the sample, so only the first in-range sample may sit on the low edge of the first bin | data `[0, 0, 1]`, range `[0, 1]`, 3 bins: the second 0 is in range but no bin counts it, so the counts add up to 2 | the first bin is closed on its low edge (`$i == 0`, as the two-dimensional class does per axis), so every in-range sample is counted | not executed | HistogramFacts.RepeatedLowDropped | HistogramFacts.BinIndexCountsAll |
| PEAR/Histogram/Histogram3D.php:159-166 | a non-empty cell's cumulative count is `$freq + $cumm - 1`, where `$cumm` already includes the cell's own pairs; an empty cell gets 0 | pairs `(0,0)`, `(1,1)`, `(2,2)`, `(3,3)`, 2 x 2 bins over `[0, 3]` on both axes: counts 3, 0, 0, 5, more than the 4 pairs and not monotone | the running total through the cell, as the one-dimensional class stores: 2, 2, 2, 4 | not executed | Histogram3DFacts.DiagonalCounts | Histogram3DFacts.CumulativeIntended |

Both classes keep the behaviour as written, so their contracts state what the code does. The
corrected rules are defined beside them. For the first finding they are
`HistogramFacts.FirstInBin`, `HistogramFacts.BinIndexOwners` and
`HistogramFacts.RepeatedLowKept`. For the second they are `Histogram3DFacts.CorrectedCount` and
`Histogram3DFacts.DiagonalCorrected`.
