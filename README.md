# Air-quality classification engine of the Urban Air Quality dashboard

This project models the logic at the heart of the Panel dashboard in
`panel_air_quality_dashboard.py`, and proves properties of that model:

- **PM2.5 AQI** (`calc_aqi`): the seven-segment piecewise-linear transform,
  truncated with `int(...)` (module `Aqi`, over the helpers in `Numeric`).
- **AQI status bands** (`get_aqi_status`): six bands, each with a label,
  an emoji, a marker colour and a background colour (`Aqi`).
- **Per-pollutant status** (`get_pollutant_status`): six threshold tables
  (PM2.5, PM10, NO2, O3, CO, SO2) on a six-label scale, plus the neutral
  "Unknown" result for any other name (`Pollutants`, over the ordered-scan
  model in `Breakpoints`).
- **Most-polluted ranking** (`create_polluted_cities_ranking`): the loop
  that builds one entry per site, the stable sort by AQI from highest to
  lowest, and the cut to ten (`Ranking`).
- **Systematic down-sampling** of daily points (`create_detailed_pollutant_view`): `iloc[::step]`
  with a stride chosen from the number of days (`Sampling`).
- **Bar arithmetic** (`Graphs`): the 48 seasonal bars of
  `generate_monthly_graph_from_real_data`, with their 5..100 % clamp, and
  the bar heights of `generate_real_historical_graph`.

Concentrations are Dafny `real`s. `int(x)` is `Numeric.Trunc`, which
truncates toward zero, so `CalcAqi` is total. Negative input goes through
the first branch and gives an AQI of at most 0, as in Python. In `Ranking`, a
latest-readings row is reduced to the two fields the ranking reads: site
and PM2.5. `list.sort(key=..., reverse=True)` is modelled by
`Ranking.SortByAqiDesc`. This is a stable insertion sort, because Python's
sort is stable and `reverse=True` keeps entries with equal keys in their
input order.

The docstring says `calc_aqi` follows the US EPA standard. Its breakpoints
are the PM2.5 breakpoints of the edition of Table 2 of Appendix G to 40 CFR
Part 58 in force before the 2024 revision (that revision lowered the upper
bound of the first segment from 12.0 to 9.0 µg/m³). The code departs from
that table as well, and the model follows the code. That edition gives
55.5–150.4 µg/m³ the AQI range 151–200. Line 87 scales the
segment 55.4–150.4 by 100, so it runs from 150 to 250. `CalcAqi(150.4)` is
therefore 250, while the next segment restarts at 200. The model keeps the
×100 (`Aqi.SegmentSpan`) and proves the drop (`Aqi.CalcAqiDropsAfter150`).
Monotonicity is proved per segment, and on each side of 150.4. The other
departures are kept as well: anchors 0, 50, 100, … instead of the
standard's 51, 101, …, and truncation instead of rounding.

## Model

| member | source | states |
|---|---|---|
| `Numeric.Trunc` | panel_air_quality_dashboard.py:80-93 | `int()` truncation toward zero: for x ≥ 0 the result r satisfies 0 ≤ r ≤ x < r+1; for x < 0, r-1 < x ≤ r ≤ 0 |
| `Numeric.TruncMonotone` | panel_air_quality_dashboard.py:81-93 | `int()` never reverses the order of two reals |
| `Numeric.SeqMax` | panel_air_quality_dashboard.py:876 | `max(values)` on a non-empty list is at least every element and is one of them |
| `Numeric.SeqMin` | panel_air_quality_dashboard.py:877 | `min(values)` on a non-empty list is at most every element and is one of them |
| `Numeric.MaxInt` | panel_air_quality_dashboard.py:2469 | the outer `max(1, ...)` of the multiplier: the result is at least both arguments and is one of them |
| `Numeric.MaxReal` | panel_air_quality_dashboard.py:391 | the `max(5, ...)` of the bar height: the result is at least both arguments and is one of them |
| `Numeric.MinReal` | panel_air_quality_dashboard.py:391 | the `min(100, ...)` of the bar height: the result is at most both arguments and is one of them |
| `Breakpoints.ScanLevel` | panel_air_quality_dashboard.py:114-125 | an ascending `<=` scan returns the first band whose bound is ≥ the value: every earlier bound is below it, or it returns the open top band |
| `Breakpoints.LevelUnique` | panel_air_quality_dashboard.py:114-125 | over a strictly increasing table a value lies in band k = (t[k-1], t[k]] exactly when the scan returns k |
| `Breakpoints.BoundClosesItsBand` | panel_air_quality_dashboard.py:114-125 | a value equal to bound k belongs to band k, the band it closes |
| `Breakpoints.ScanExtremes` | panel_air_quality_dashboard.py:114-125 | a value at or below the first bound is in band 0; a value above the last is in the top band |
| `Breakpoints.ScanMonotone` | panel_air_quality_dashboard.py:114-125 | a larger value never falls into a lower band |
| `Aqi.CalcAqi` | panel_air_quality_dashboard.py:78-95 | for pm25 ≥ 0 the AQI is an integer in [0, 500]; a negative input gives ≤ 0; above 500.4 it is exactly 500 |
| `Aqi.SegmentUpperIncreasing` | panel_air_quality_dashboard.py:80-92 | the seven segment bounds 12 … 500.4 are strictly increasing |
| `Aqi.CalcAqiMatchesTable` | panel_air_quality_dashboard.py:78-95 | the if/elif chain equals the segment table: scan the bounds, interpolate the segment found from its anchor by its span, 500 past the last |
| `Aqi.InterpolateIsBranch` | panel_air_quality_dashboard.py:81-93 | the table interpolation of segment k is the formula of the k-th branch, with that branch's literal bounds, anchor and span |
| `Aqi.CalcAqiAnchors` | panel_air_quality_dashboard.py:80-95 | anchor values 0→0, 12→50, 35.4→100, 55.4→150, 150.4→250, 250.4→300, 350.4→400, 500.4→500, 600→500, with a breakpoint closing the lower segment |
| `Aqi.InterpolateMonotone` | panel_air_quality_dashboard.py:81-93 | each segment's truncated interpolation is non-decreasing in the concentration |
| `Aqi.CalcAqiMonotoneInSegment` | panel_air_quality_dashboard.py:80-93 | two concentrations in the same segment keep their order in the AQI |
| `Aqi.CalcAqiMonotoneUpTo150` | panel_air_quality_dashboard.py:80-87 | on [0, 150.4] the AQI is non-decreasing across segment boundaries |
| `Aqi.CalcAqiMonotoneAbove150` | panel_air_quality_dashboard.py:88-95 | above 150.4 the AQI is non-decreasing |
| `Aqi.CalcAqiDropsAfter150` | panel_air_quality_dashboard.py:86-89 | the AQI of 150.4 is 250, every concentration in (150.4, 200.4) gets less, and 150.5 gets 200: not monotone overall |
| `Aqi.GetAqiStatus` | panel_air_quality_dashboard.py:97-110 | total over the integers: the result is the display (label, emoji, two colours) of the band c exactly when the AQI lies in c's range ≤50, 51–100, 101–150, 151–200, 201–300, >300 |
| `Aqi.CategoriesPartition` | panel_air_quality_dashboard.py:97-110 | every integer AQI lies in exactly one of the six bands |
| `Aqi.AqiStatusBoundaries` | panel_air_quality_dashboard.py:98-110 | 50 Good, 51 Moderate, 100/101, 150/151, 200/201 on either side of a boundary, 300 Very Unhealthy, 301 Hazardous, negative Good |
| `Aqi.CategoryDisplay` | panel_air_quality_dashboard.py:99-110 | each band's display has a non-empty emoji and two colours written as `#` followed by six lower-case hex digits |
| `Aqi.CategoryLabelsDistinct` | panel_air_quality_dashboard.py:99-110 | the six bands have six different labels, so the label alone identifies the band |
| `Pollutants.ParsePollutant` | panel_air_quality_dashboard.py:112-193 | a name is recognised exactly when it is the name of one of the six pollutants, and it is recognised as that one |
| `Pollutants.GetPollutantStatus` | panel_air_quality_dashboard.py:112-193 | the result is ("Unknown", #666666, #f5f5f5) exactly for unrecognised names; otherwise it is one of the six category displays |
| `Pollutants.Thresholds` | panel_air_quality_dashboard.py:114-191 | every pollutant has five upper bounds, strictly increasing and starting above zero |
| `Pollutants.ThresholdsIncreasing` | panel_air_quality_dashboard.py:114-191 | each of the six threshold tables is strictly increasing |
| `Pollutants.ScanOfFive` | panel_air_quality_dashboard.py:114-125 | over a strictly increasing five-bound table the scan gives the same band as the ascending `<=` chain |
| `Pollutants.GetPollutantStatusMatchesTable` | panel_air_quality_dashboard.py:114-191 | for each pollutant the nested chain equals its threshold table scanned in ascending order with `<=` |
| `Pollutants.PollutantBandUnique` | panel_air_quality_dashboard.py:114-191 | a known pollutant's value gets the category of band k exactly when it lies in band k of that pollutant's table |
| `Pollutants.TableBandUnique` | panel_air_quality_dashboard.py:114-191 | scanning a pollutant's table gives band k's display exactly when the value lies in band k |
| `Pollutants.ThresholdClosesLowerBand` | panel_air_quality_dashboard.py:114-191 | a value equal to a threshold gets the category that threshold closes, for every threshold of every table |
| `Pollutants.PollutantExtremes` | panel_air_quality_dashboard.py:114-191 | above the last threshold every pollutant is Hazardous; at or below zero every one is Good |
| `Pollutants.ColoursFollowLabel` | panel_air_quality_dashboard.py:112-193 | two results with the same label have the same colours, whatever the pollutants and values |
| `Pollutants.PollutantExamples` | panel_air_quality_dashboard.py:114-193 | PM2.5 12 Good, 12.1 Moderate; PM10 500 Hazardous; CO 4.4/4.5; an unrecognised name is Unknown |
| `Ranking.StandardMultiplier` | panel_air_quality_dashboard.py:2469 | `max(1, int(aqi/50))` is ≥ 1, it is 1 below 100, and from 100 on it is the m with 50m ≤ aqi < 50(m+1) |
| `Ranking.RankingOf` | panel_air_quality_dashboard.py:2465-2478 | one entry per row: the city is the site, the AQI is `calc_aqi` of its PM2.5, in [0, 500] for a non-negative reading, and the multiplier is `StandardMultiplier` of the AQI, so ≥ 1 |
| `Ranking.RankingStatusIsBand` | panel_air_quality_dashboard.py:2466-2476 | the entry's status, colour and background are those of the AQI band its AQI lies in |
| `Ranking.Rankings` | panel_air_quality_dashboard.py:2463-2478 | the list built from the rows has one entry per row, entry i built from row i |
| `Ranking.InsertByAqi` | panel_air_quality_dashboard.py:2481 | one insertion step of the sort adds exactly the inserted entry (as a multiset), and the new head is the inserted entry or the old head |
| `Ranking.InsertKeepsSorted` | panel_air_quality_dashboard.py:2481 | inserting into a list sorted by descending AQI keeps it sorted |
| `Ranking.SortedCons` | panel_air_quality_dashboard.py:2481 | putting an entry with AQI at least the head's in front of a sorted list keeps it sorted |
| `Ranking.ClassOfCons` | panel_air_quality_dashboard.py:2481 | the entries of one AQI value in a list with a new head: the head if it has that value, then those of the rest |
| `Ranking.InsertKeepsClass` | panel_air_quality_dashboard.py:2481 | the inserted entry goes ahead of every entry with the same AQI |
| `Ranking.SortByAqiDesc` | panel_air_quality_dashboard.py:2481 | the sort returns a permutation of its input, sorted by AQI from highest to lowest |
| `Ranking.SortKeepsClasses` | panel_air_quality_dashboard.py:2481 | the sort is stable: the entries of each AQI value keep their input order |
| `Ranking.ClassOfPrefix` | panel_air_quality_dashboard.py:2482 | cutting a list keeps, for each AQI value, a prefix of its entries |
| `Ranking.PrefixDominates` | panel_air_quality_dashboard.py:2481-2482 | in a sorted list no entry past the cut has a higher AQI than an entry before it |
| `Ranking.PrefixSorted` | panel_air_quality_dashboard.py:2482 | the first n entries of a sorted list are sorted |
| `Ranking.PrefixSubMultiset` | panel_air_quality_dashboard.py:2482 | the first n entries of a list are drawn from it |
| `Ranking.TopKeepsClassOrder` | panel_air_quality_dashboard.py:2481-2482 | the first n of the sorted list hold, for each AQI value, a prefix of that value's entries in input order |
| `Ranking.TopKeepsMultipliers` | panel_air_quality_dashboard.py:2481-2482 | every entry among the first n of the sorted list has a multiplier ≥ 1 when every input entry does |
| `Ranking.RankingsKeepMultipliers` | panel_air_quality_dashboard.py:2469-2478 | every entry built from the rows has a multiplier ≥ 1 |
| `Ranking.TopOfSorted` | panel_air_quality_dashboard.py:2481-2482 | the first n of the sorted list are sorted, drawn from the input, dominate the rest, keep each AQI value's first entries in input order, and have multiplier ≥ 1 |
| `Ranking.RankPollutedCities` | panel_air_quality_dashboard.py:2463-2482 | the result has min(10, n) entries and is the sorted list's prefix; it is sorted descending and a sub-multiset of the input's entries; no entry left out has a higher AQI; ties keep input order; every multiplier is ≥ 1 |
| `Sampling.EveryNthLength` | panel_air_quality_dashboard.py:447 | `iloc[::step]` of n points keeps ⌈n/step⌉, the m with (m-1)·step < n ≤ m·step, and is empty only when the input is |
| `Sampling.EveryNth` | panel_air_quality_dashboard.py:447 | `iloc[::step]` keeps no more points than it is given, keeps the first one of a non-empty series, and with stride 1 keeps them all |
| `Sampling.EveryNthAt` | panel_air_quality_dashboard.py:447 | point k of `iloc[::step]` is input point k·step |
| `Sampling.EveryFirstIsIdentity` | panel_air_quality_dashboard.py:447-450 | with stride 1 nothing is dropped |
| `Sampling.SampleStep` | panel_air_quality_dashboard.py:445-452 | the stride n//200 (n > 200), n//100 (100 < n ≤ 200) or none is at least 1 |
| `Sampling.Downsample` | panel_air_quality_dashboard.py:445-452 | above 100 points the series is sliced with the stride `SampleStep` gives; the sample has no more points than the series and starts with its first day when there is one |
| `Sampling.DownsampleShape` | panel_air_quality_dashboard.py:445-452 | the sample has ⌈n/step⌉ points, point k is day k·step, and it starts with the first day |
| `Sampling.DownsampleSmall` | panel_air_quality_dashboard.py:445-452 | below 200 points the series is unchanged (the stride is 1 from 101 to 199); at 200 it halves to 100 |
| `Sampling.DownsampleLargeBounds` | panel_air_quality_dashboard.py:445-447 | above 200 points the sample keeps between 200 and 399 points |
| `Graphs.MonthlyFactor` | panel_air_quality_dashboard.py:379 | with a positive current value the factor times it gives back the average; otherwise it is 1.0 |
| `Graphs.MonthlyFactors` | panel_air_quality_dashboard.py:375-380 | the factor dictionary has the months of the averages, each with its month's factor |
| `Graphs.FactorOf` | panel_air_quality_dashboard.py:387 | `monthly_factors.get(i, 1.0)`: the month's factor when it is in the dictionary, 1.0 otherwise |
| `Graphs.WeekFactor` | panel_air_quality_dashboard.py:390 | the week ramp starts at 0.8 times the month's factor in week 0 and ends at 1.2 times it in week 3 |
| `Graphs.HeightPercent` | panel_air_quality_dashboard.py:391 | the clamped height lies in [5, 100], equals 50·factor inside that range and the nearer end outside it |
| `Graphs.BarAt` | panel_air_quality_dashboard.py:386-398 | bar k has height in [5, 100], the name of month k/4+1, and value current × the week factor of week k mod 4 of that month |
| `Graphs.BarOfWeek` | panel_air_quality_dashboard.py:386-398 | bar 4m+w is built from week w of month m+1: its factor, its clamped height and its value |
| `Graphs.AppendBar` | panel_air_quality_dashboard.py:394-398 | appending the next bar to the first k bars gives the first k+1 bars |
| `Graphs.MonthlyBars` | panel_air_quality_dashboard.py:383-398 | the nested loops build 48 bars, bar k equal to `BarAt` k (week k mod 4 of month k/4+1), with height in [5, 100] and that month's name |
| `Graphs.WeeksRise` | panel_air_quality_dashboard.py:387-391 | within a month of non-negative factor the bars never get lower from week to week |
| `Graphs.BarValueIsScaledAverage` | panel_air_quality_dashboard.py:379-392 | with a positive current value a bar's value is its month's average times the week's 0.8–1.2 ramp |
| `Graphs.BarHeight` | panel_air_quality_dashboard.py:884-887 | a non-positive range gives the default height 50; a positive range gives 0 at the minimum |
| `Graphs.BarHeightsAsWritten` | panel_air_quality_dashboard.py:869-887 | no heights for no data; otherwise one height per value (range taken as written); its bounds and its constant-series behaviour are the two lemmas below |
| `Graphs.BarHeights` | panel_air_quality_dashboard.py:869-887 | no heights for no data; otherwise one height per value, with the range max − min |
| `Graphs.BarHeightsAsWrittenBounded` | panel_air_quality_dashboard.py:876-887 | as written, every height is still in [0, 100] |
| `Graphs.ConstantSeriesAsWritten` | panel_air_quality_dashboard.py:878-887 | as written, a constant series gets height 0 for every bar when its value is positive and the default 50 when it is zero or negative |
| `Graphs.BarHeightBounds` | panel_air_quality_dashboard.py:884-887 | one bar's height is in [0, 100], 0 at the minimum and 100 at the maximum of a non-constant series |
| `Graphs.BarHeightsBounded` | panel_air_quality_dashboard.py:876-887 | every height is in [0, 100]; unless all values are equal, the lowest value gets 0 and the highest 100 |
| `Graphs.EqualValuesGetDefault` | panel_air_quality_dashboard.py:884-887 | with the corrected range, a constant series gets the default height 50 for every bar |
| `Graphs.BarHeightsAgreeOnSpread` | panel_air_quality_dashboard.py:878-887 | on a non-constant series the corrected and as-written heights are the same |
| `Graphs.EqualPositiveValuesFlattenAsWritten` | panel_air_quality_dashboard.py:878-887 | as written, [5, 5] gets heights [0, 0]; corrected, [50, 50] |

## Left out

- Loading from the SQLite store (`load_latest_data`, `load_historical_data_sample`, `get_cities_list`): I/O against an external database. The model takes the rows as parameters.
- pandas `groupby(...).mean()` (monthly and daily averages) and `sort_values`: library aggregation. The averages are inputs (`Graphs.MonthlyFactors` takes them as a map), and the daily series is taken as already in date order.
- The current value and the latest row, picked with `sort_values(...).iloc[-1]`: these become parameters.
- Panel widgets, `pn.depends` callbacks and the module-level selection variables: UI wiring.
- Plotly figures and every HTML/CSS/JS template string, including the bar `title` text with its `:.1f` formatting: presentation only. `Graphs.MonthBar` keeps the month and the value that the title shows.
- The time-window cutoffs based on `datetime.now()`: they depend on the clock.
- IEEE-754 floats: real arithmetic replaces them. NaN and infinities are not modelled, and neither are rounding effects at the breakpoints.
- The hard-coded CO/SO2 defaults and the fixed "Good" statuses of the pollutant cards: they bypass `get_pollutant_status`.
- The in-place `city_rankings.sort(...)`: modelled on values by `Ranking.SortByAqiDesc`. The model says what list results, not how the list object is updated.
- The `max_value`/`min_value` statistics of the monthly bars (lines 401-403): plain `max`/`min`, whose meaning `Numeric.SeqMax`/`Numeric.SeqMin` state. No separate member applies them to the bars.
- `get_pollutant_info` (units, icons, descriptions): constant text.
- `generate_monthly_graph_from_real_data`'s `try/except` returning `(None, None, None)`: an exception path of the pandas calls.

## Findings

| source | as written | input that shows it | evidently intended | confidence | as-written member | corrected member |
|---|---|---|---|---|---|---|
| panel_air_quality_dashboard.py:878-887 | `value_range = max_val - min_val if max_val != min_val else max_val`, so for equal positive values the range is positive and every bar gets height (v − min)/max·100 = 0 | values [5.0, 5.0] give heights [0, 0] | equal values get the default height 50, as the comment on line 887 says | not executed; medium | `Graphs.EqualPositiveValuesFlattenAsWritten` and `Graphs.ConstantSeriesAsWritten` (on `Graphs.BarHeightsAsWritten`) | `Graphs.BarHeights`, with `Graphs.EqualValuesGetDefault` and `Graphs.BarHeightsBounded` |
