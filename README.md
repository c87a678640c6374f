# Light-pollution analysis: verified model of the analytical core

The program clips a night-time satellite radiance raster to a region's
boundary, floors negative radiance to zero, classifies every pixel of the
first band on the 9-level Bortle scale (1 = darkest sky, 9 = most
light-polluted) and reports, for every class from 1 to 9, the share of the
region's pixels that fall in it.

This project models that core in Dafny:

- `bortle.dfy` (module `Bortle`): `calculate_bortle_scale`, including
  numpy's `digitize` with its default `right=False`, which for increasing
  bins such as the classifier's edges is the number of edges `<=` the value. Radiance is an exact `real`; the classifier only
  compares, so nothing is lost.
- `raster.dfy` (module `Raster`): the in-place assignment
  `out_image[out_image < 0] = 0` as a method over an `array<real>` holding
  the clipped image flattened band by band (row-major within a band), and
  `out_image[0]` as the first `rows * cols` cells.
- `statistics.dfy` (module `Statistics`): `calculate_area_statistics`.
  `np.unique(..., return_counts=True)` zipped into a dict is an ascending
  table of `Entry(level, count)` built by sorted insertion; `stats.get(level, 0)`
  is `Lookup`; `sum(counts)` is `Total`; the loop over levels 1..9 is a
  method whose report is one percentage per level. An empty grid makes
  `total_pixels` zero and the first division raise; the model returns
  `DivisionByZero` there.
- `pipeline.dfy` (module `Pipeline`): `process_light_pollution` from the
  clipped image on (flooring, band 0, `np.vectorize` of the classifier as an
  element-wise map) and the two calls at the bottom of the script. Called
  without `otypes`, `np.vectorize` raises on an input with no cells, so an
  empty band stops the script before the statistics are computed; the model
  returns `EmptyBand` there.

Percentages are computed over exact reals, so the nine of a non-empty grid
sum to exactly 100.

At exact edges the code puts the value in the bin the edge opens:
1.5 is class 4 and 10.0 is class 8 (10.0 is not `> 10.0`, and it opens the
seventh digitize bin); see `Bortle.ClassifyAtEdges`.

## Model

| member | source | states |
|---|---|---|
| `Bortle.Classify` | main.py:33-36 | every radiance gets a class in 1..9 |
| `Bortle.Digitize` | main.py:36 | `np.digitize(x, bins)` with `right=False`: the number of bins `<=` x, at most the number of bins |
| `Bortle.DigitizeBin` | main.py:36 | for increasing bins, digitize returns the index i such that exactly the bins before i are `<=` the value (the half-open bin `[bins[i-1], bins[i])`) |
| `Bortle.DigitizeMonotone` | main.py:36 | digitize is non-decreasing in the value |
| `Bortle.ClassifyOpensBin` | main.py:34-36 | below 0.1 is class 1, strictly above 10.0 is class 9, and in 0.1..10.0 the class c is in 2..8 with `Edges[c-2] <= r` and, unless c is 8, `r < Edges[c-1]` |
| `Bortle.ClassifyByIntervals` | main.py:33-36 | the classifier equals an independent table of left-closed, right-open intervals on every radiance |
| `Bortle.ClassifyAtEdges` | main.py:34-36 | 0.09 gives 1, 0.1 gives 2, 0.5 gives 3, 1.5 gives 4, 3.0 gives 5, 5.0 gives 6, 7.0 gives 7, 10.0 gives 8, 10.1 gives 9 |
| `Bortle.ClassifyMonotone` | main.py:33-36 | r1 <= r2 implies class(r1) <= class(r2) |
| `Raster.Floored` | main.py:23 | same length; every cell is >= 0; non-negative cells keep their value; negative cells become 0 |
| `Raster.FloorNegatives` | main.py:23 | after the in-place update the array equals `Floored` of its old contents, so every cell is >= 0, non-negative cells are unchanged and no other cell changes |
| `Raster.FlooredIdempotent` | main.py:23 | flooring twice is flooring once |
| `Raster.FlooredFixedIff` | main.py:23 | flooring leaves the image unchanged if and only if it has no negative cell |
| `Raster.FirstBand` | main.py:24 | band 0 is `rows * cols` cells, the first ones of the band-major image |
| `Raster.FirstBandOfFloored` | main.py:23-24 | band 0 of the floored image is the floored band 0 |
| `Statistics.Count` | main.py:50 | a value's count is at most the grid size, and it is 0 exactly when the value does not occur |
| `Statistics.Insert` | main.py:50-51 | adding one occurrence keeps the table's levels strictly ascending |
| `Statistics.Tally` | main.py:50-51 | the table built from the grid has strictly ascending levels, as `np.unique` sorts them |
| `Statistics.TallyLevels` | main.py:50-51 | the table's levels are exactly the distinct values of the grid, each with a positive count |
| `Statistics.InsertLevels` | main.py:50-51 | insertion adds v to the table's levels and keeps the others |
| `Statistics.InsertPositive` | main.py:50-51 | insertion keeps every count positive |
| `Statistics.InsertLookup` | main.py:50-51 | insertion adds one to v's count and leaves every other level's count |
| `Statistics.Lookup` | main.py:57 | `stats.get(level, 0)`: the count looked up for a level never exceeds the sum of all counts |
| `Statistics.LookupFinds` | main.py:51-57 | in a table of distinct levels, `stats.get` of an entry's level is that entry's count |
| `Statistics.LookupAbsent` | main.py:57 | `stats.get(level, 0)` is 0 for a level the table does not hold |
| `Statistics.TallyLookup` | main.py:50-57 | `stats.get(level, 0)` equals the number of cells holding that level, 0 for an absent level |
| `Statistics.Total` | main.py:53 | `sum(counts)` of a table with positive counts is at least its number of entries |
| `Statistics.InsertTotal` | main.py:53 | insertion adds one to the sum of the counts |
| `Statistics.TallyTotal` | main.py:50-53 | `total_pixels = sum(counts)` equals the number of cells |
| `Statistics.Percentage` | main.py:58 | a count no larger than the total gives a value in [0, 100]; the value is 0 exactly when the count is 0; the whole total gives 100 |
| `Statistics.PercentRow` | main.py:56-58 | n percentages for the levels lo..lo+n-1, the k-th being the percentage of cells holding level lo + k |
| `Statistics.PercentRowSnoc` | main.py:56-58 | one more loop iteration appends the next level's percentage to the row |
| `Statistics.LevelPercentages` | main.py:56-58 | nine percentages, one per level 1..9, each in [0, 100], 0 for a level that does not occur |
| `Statistics.CalculateAreaStatistics` | main.py:49-59 | an empty grid fails with a division by zero; otherwise the report holds, for levels 1..9 in order, `count / total * 100` with the count taken directly on the grid |
| `Statistics.CountRangeCons` | main.py:56-57 | one more cell on the front adds one to the combined count of a run of levels exactly when its value lies in the run |
| `Statistics.CountRangeCovers` | main.py:53-57 | when every value lies in a run of levels, the counts of those levels add up to the number of cells |
| `Statistics.LevelCountsCoverGrid` | main.py:53-57 | for a grid of Bortle classes the counts of levels 1..9 add up to the number of cells |
| `Statistics.PercentageAdd` | main.py:58 | percentages of the same total add like their counts |
| `Statistics.PercentRowSum` | main.py:56-58 | the percentages of a run of levels add up to the percentage of their combined count |
| `Statistics.PercentagesSumTo100` | main.py:53-58 | for a non-empty grid of Bortle classes the nine percentages sum to exactly 100 |
| `Pipeline.ClassifyGrid` | main.py:26-27 | the classified grid has the shape of the band, every cell is the classifier applied to the matching radiance, and every cell is a class in 1..9 |
| `Pipeline.ClassifyGridMonotone` | main.py:26-27 | a brighter cell never gets a lower class than a dimmer cell of the same band |
| `Pipeline.ProcessLightPollution` | main.py:14-30 | the image is floored in place; an empty band 0 fails in `np.vectorize`, otherwise the result is the element-wise classification of band 0 |
| `Pipeline.AnalyseRegion` | main.py:61-62 | the script stops for an empty band, otherwise it reports the per-level percentages of the classified, floored band 0 |
| `Pipeline.BandReportSumsTo100` | main.py:26-27 | for any non-empty band the class counts cover every cell and the nine percentages sum to exactly 100 |
| `Pipeline.FlooredBandClasses` | main.py:23-27 | after flooring every cell of band 0 is >= 0, and a cell that was zero or negative is class 1; this covers the mask's fill outside the boundary when the raster declares no nodata value or a non-positive one |

## Left out

- Geocoding the region and writing the boundary file (main.py:8-10): network and file I/O.
- Reading the boundary and the raster, reprojection with `to_crs`, and `mask(..., crop=True)` (main.py:15-21): library calls; the clipped image is the model's input, and `bands >= 1` stands for the mask returning at least one band.
- The mask's fill value outside the boundary (main.py:21): without `nodata=`, rasterio fills with the raster's own nodata value, or 0 when it declares none. The model takes the filled image as given; a NaN or positive fill is not class 1 and is not modelled specially.
- `plot_pollution_map` (main.py:29, 39-46): rendering with matplotlib and `log1p`.
- Printing and the `:.2f` formatting of the report (main.py:55, 59): the report is modelled as the list of percentage values.
- Floating point: radiance and percentages are exact reals, so the model does not capture rounding in `count / total_pixels * 100`, and NaN radiance (which digitize sends to the last bin) is not modelled.
- The shape of the numpy arrays: the image is a flat band-major array and band 0 a flat row-major sequence; only the length `rows * cols` of the shape is kept.
- `Statistics.Tally` builds the table by sorted insertion rather than numpy's sort-then-count; only the resulting table (ascending distinct values with their counts) is modelled.
