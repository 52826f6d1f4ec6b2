# Building-stock dashboard: charts, renderers and statistics

A model of the analytic core of a 3D building-stock dashboard. A selection of
building units, read as features whose attributes are numbers or strings, is
turned into three things:

- **Area histogram** (`barMaker.createChartData`). The area range is cut into
  bars. Their width is snapped to a "nice" tier (500, 250, 100, 50, 10, 5 or 1),
  the first bar starts at a multiple of that width, and an area is counted in a
  bar when it is above the bar's low bound and at most its high bound. Bars are
  coloured position by position from a six- or ten-colour ramp.
- **Lease-expiry chart** (`barMaker.createChartData_exp`). There is one bar per
  distinct expiry year other than 1970, the epoch year, which a null date
  gives in UTC. Bars are ascending and count the records of their year.
- **Renderers** (`applyRenderer`). These are a unique-value table, the overview
  gradient over a whole field, the highlight gradient for one bar, and the
  lease-expiry gradient.
- **Statistics panel** (`statsMaker.createChartData`). It gives:
  - the distinct unit and building counts;
  - the most common usage and tenancy by area, or the placeholder `"0ther"`;
  - the total, largest and average area;
  - the highest and average floor.

The chart handlers are modelled as a class `ChartHandlers.SceneState`. A click
on an area bar applies that bar's highlight gradient and turns shadows and
ambient occlusion off. A click on a lease-expiry bar applies a unique-value
table built from the bar's year. The reload button restores the overview
gradient and turns the lighting back on.

Modules, in dependency order:

| module | file | contents |
|---|---|---|
| Wrappers | wrappers.dfy | `Option` |
| Radix | radix.dfy | `toString(radix)` and digit strings read back |
| JsValues | js_values.dfy | JS numbers (NaN, ±Infinity), `Math.floor/ceil/round`, features and attributes, `Number(string)` |
| ArrayUtil | array_util.dfy | the `onlyUnique` filter, stable sort by key, sums, occurrence counts |
| LeaseYears | lease_years.dfy | the sorted unique non-1970 years |
| ApplyRenderer | apply_renderer.dfy | renderer construction |
| BarMaker | bar_maker.dfy | area histogram, lease-expiry chart, hex colours |
| ChartHandlers | chart_handlers.dfy | the click and reload handlers as state changes |
| StatsMaker | stats_maker.dfy | the statistics panel |

The source does things step by step: push loops, in-place counters, sorted
arrays, and fields that are assigned and then overwritten. Those parts are
methods with loop invariants. Each method's `ensures` ties its result to a
reference function, and lemmas state what the source promises about that
function.

JS semantics the model writes out:

- `Math.round(x)` is `Floor(x + 1/2)`.
- A null area compares and subtracts as 0.
- The sorts are stable with a consistent comparator, so they are a stable
  sort by key.
- `onlyUnique` keeps the first occurrence of each value.
- NaN and the infinities appear as values only where the code produces them:
  - `Math.round(undefined)` for an empty list;
  - `Number(s)` of a non-numeric string;
  - a zero width or a zero divisor.

Quirks of the code that the model keeps as written:

- **Values at or below the first bar's low bound are counted nowhere.** The bars
  do not always count every value. ChartTotal states that they count all values
  exactly when every value lies above the first bar's start. LostValueExample
  shows areas 8 and 30 in two bins giving bars (10, 20] and (20, 30] that hold
  only one value.
- **A range of one repeated value usually gives no bars** (DegenerateRange,
  NearOneExample). It gives bars only when the value rounds to 1, so that the
  start drops to 0, and the value divided by the clamped bin count still rounds
  to at least 1. That means a bin count of 1, or 2 for a value of at least 1.
  In every other case the snapped width is 0, or not finite for 0 bins. When more bins than
  records are requested, the bin count is clamped to one less than the record
  count, so a one-record selection asked for two or more bins gets 0 bins.
- **Null areas are binned as 0.** They are not skipped.
- **A single lease-expiry click does not isolate a year.** It builds a
  unique-value table from the characters of the year string, so no real field
  value matches it (YearTableMissesLongValues).
- **The lease-expiry gradient's stops come from indexes 1 and `years.length - 1`**
  of the sorted unique years, so one or both stops are NaN unless the raw years
  are distinct (ExpiryHighStop, ExpiryLowStop).
- **`areaMax` and `floorMax` of an empty selection are NaN**: `Math.round` of
  `undefined`.

## Model

| member | source | states |
|---|---|---|
| Radix.NatToStringRoundTrip | app/support/barMaker.js:376-378 | `c.toString(radix)` is a non-empty string of lower-case digits. It has one digit exactly when `c < radix` and reads back as `c`. |
| Radix.LeadingZero | app/support/barMaker.js:376-378 | A leading `"0"` does not change what a digit string reads as. |
| JsValues.Round | app/support/barMaker.js:80 | `Math.round(x)` is the integer within half a unit of `x`, with halves rounding up. |
| JsValues.NonNullValues | app/support/statsMaker.js:179-185 | The values pushed for the records whose attribute is not null are exactly those attribute values. |
| JsValues.NumericValues | app/support/applyRenderer.js:133-138 | The numeric values pushed are exactly the numeric attribute values. |
| JsValues.CollectNonNull | app/support/statsMaker.js:179-185 | The push loop builds the non-null attribute values in record order. |
| JsValues.CollectNumeric | app/support/applyRenderer.js:133-138 | The push loop builds the numeric attribute values in record order. |
| JsValues.NumberOfIntString | app/support/applyRenderer.js:226 | `Number` reads back the decimal string of every integer, as the year sort's `a - b` does. |
| ArrayUtil.OnlyUnique | app/support/statsMaker.js:187-191 | `filter(onlyUnique)` has no repetitions, keeps only elements of the input, and keeps every one of them. |
| ArrayUtil.FirstIndex | app/support/statsMaker.js:187-189 | `indexOf(value)` is an index holding the value with no equal element before it. |
| ArrayUtil.OnlyUniqueOrder | app/support/statsMaker.js:187-191 | The kept values are in the order of their first occurrences in the input: earlier entries of the result have smaller `indexOf`. |
| ArrayUtil.OnlyUniqueKeepsAll | app/support/statsMaker.js:187-191 | The filter keeps all elements exactly when the input has no repetitions, and then returns it unchanged. |
| ArrayUtil.DistinctCardinality | app/support/statsMaker.js:191-193 | A list without repetitions has as many elements as its set. |
| ArrayUtil.SortBy | app/support/statsMaker.js:75 | The stable sort by key returns a permutation of its input that is ascending by key. |
| ArrayUtil.LastOfSortBy | app/support/statsMaker.js:86 | After the sort, the last element is the input's element at the last index of a largest key. |
| ArrayUtil.SumBySortBy | app/support/statsMaker.js:77-81 | Sorting does not change a sum. |
| ArrayUtil.OccurrencesMembership | app/support/barMaker.js:283-289 | A value occurs at least once exactly when it is an element. |
| LeaseYears.CategoriesAscending | app/support/barMaker.js:254-260 | The unique years are strictly ascending. |
| LeaseYears.CategoriesMembers | app/support/barMaker.js:254-260 | The unique years are exactly the parsed years other than 1970. |
| LeaseYears.CategoriesKeepAll | app/support/barMaker.js:254-258 | No year is dropped exactly when the parsed years are distinct and none is 1970. |
| ApplyRenderer.CreateValueInfos | app/support/applyRenderer.js:67-89 | One table entry per value, in order, each valued and captioned by its value and coloured by the colour at its index (`undefined` past the end). |
| ApplyRenderer.CreateRenderer | app/support/applyRenderer.js:52-65 | A unique-value renderer on the field, with the grey default symbol, the `"N.A."` label and the value table. |
| ApplyRenderer.ValueTableLookup | app/support/applyRenderer.js:67-89 | In a table built from distinct values, each value gets the colour at its index and any other value gets the default. |
| ApplyRenderer.CreateStops | app/support/applyRenderer.js:112-127 | `values.length + 1` opacity stops, the first pair duplicated, with `alpha[i]` or `undefined`. |
| ApplyRenderer.ApplyOpacity | app/support/applyRenderer.js:101-110 | The opacity variable's stops are `undefined`, because `createStops` returns nothing. |
| ApplyRenderer.CreateRendererVV | app/support/applyRenderer.js:129-162 | It builds the overview gradient: `Math.floor(min)` in `#E4002B` and `Math.ceil(max)` in `#001933` over the numeric values. |
| ApplyRenderer.OverviewSpan | app/support/applyRenderer.js:140-141 | With values, both stops are integers. The low stop is at most every value and less than 1 below the smallest. The high stop is at least every value and less than 1 above the largest. Without values they are Infinity and −Infinity. |
| ApplyRenderer.CreateRendererVVExp | app/support/applyRenderer.js:192-252 | It builds the lease-expiry gradient from indexes 1 and `years.length - 1` of the sorted unique non-1970 years of the non-null values. |
| ApplyRenderer.GenerateYears | app/support/applyRenderer.js:206-213 | `generateArrayOfYears` gives the year of every collected value, in order. |
| ApplyRenderer.ExpiryHighStop | app/support/applyRenderer.js:228 | The high stop is defined exactly when the years are non-empty, distinct and free of 1970. It is then the latest year. |
| ApplyRenderer.ExpiryLowStop | app/support/applyRenderer.js:229 | The low stop is defined exactly when there are two unique years. It is then later than the earliest. |
| ApplyRenderer.CreateRendererVVbar | app/support/applyRenderer.js:164-189 | It builds four stops with the grey default at `min - 1` and `max + 1` and the bar colour at `min` and `max`. The stops ascend when `min <= max`, strictly when `min < max`. |
| ApplyRenderer.CreateRendererVVbarExp | app/support/applyRenderer.js:254-279 | It builds three strictly ascending stops at `year - 1`, `year` and `year + 1`. Only the middle one has the colour. |
| BarMaker.SnapWidth | app/support/barMaker.js:86-106 | The snapped width is positive exactly when the raw width is at least 1/2. |
| BarMaker.SnapWidthNearest | app/support/barMaker.js:86-106 | The snapped width is the multiple of the tier's unit nearest to the raw width. |
| BarMaker.MaxIterate | app/support/barMaker.js:57-65 | `maxIterate` gives the largest value, or `undefined` for none. |
| BarMaker.MinIterate | app/support/barMaker.js:67-75 | `minIterate` gives a value at most every element and at most `max`. It is `max` or an element. |
| BarMaker.CreateChartData | app/support/barMaker.js:41-153 | The method's bars are the reference chart of the areas, with null read as 0. |
| BarMaker.BinValues | app/support/barMaker.js:84-151 | From the width onwards, the loops build the reference chart of the plan for `max`, `min` and the clamped bin count. |
| BarMaker.MakeKernel | app/support/barMaker.js:113-119 | `ceil(bins_new)` ranges, range `i` starting `i` widths after the start. |
| BarMaker.LabelBins | app/support/barMaker.js:134-143 | One empty bar per range, labelled by the rounded bounds and coloured by position. |
| BarMaker.CountValues | app/support/barMaker.js:145-151 | Each bar's count is the number of values strictly above its low bound and at most its high bound. |
| BarMaker.PlanShape | app/support/barMaker.js:80-110 | A plan has a non-zero width and an integer start that is a multiple of it. The width is positive for a positive bin count. The start is within half a width of the low end. |
| BarMaker.PlannedBinAt | app/support/barMaker.js:113-151 | Bar `i` covers `(start + i·width, start + (i+1)·width]`, counts the values in it, and has colour `color[i]`. |
| BarMaker.ChartContiguous | app/support/barMaker.js:113-119 | The bars start at the plan's start, are one width wide each, and each starts where the previous one ends. |
| BarMaker.ChartCoversMax | app/support/barMaker.js:110-119 | With a positive width, the last bar holds the largest value, and no value lies above it. |
| BarMaker.ChartTotal | app/support/barMaker.js:145-151 | The counts add up to at most the number of values. They equal the number of values in `(start, last bound]`, and all values exactly when every value lies above the start. |
| BarMaker.AllAboveStartCounted | app/support/barMaker.js:145-151 | When every value lies above the start, there are `ceil(bins_new)` bars and they count every value. |
| BarMaker.ChartColors | app/support/barMaker.js:121-141 | The ten-colour ramp is used for more than 9 bins. Bar `i` has `color[i]`, `undefined` past the ramp, and all bars are coloured exactly when the ramp is long enough. |
| BarMaker.LostValueExample | app/support/barMaker.js:145-151 | Areas 8 and 30 in two bins give bars (10, 20] and (20, 30] holding 0 and 1 values. |
| BarMaker.NearOneExample | app/support/barMaker.js:80-82 | Areas that round to 1 start at 0: areas 1 and 1 give one bar (0, 1] holding both. |
| BarMaker.DegenerateRange | app/support/barMaker.js:84-110 | Equal values that do not round to 1 give no bars. |
| BarMaker.TierExample | app/support/barMaker.js:84-110 | Areas 10, 20, 30, 40 and 1005 in five bins give width 200, start 0, `bins_new` 5.025 and six bars, with every value above the start. |
| BarMaker.LabelTextReadsBack | app/support/barMaker.js:136 | The label `low + "m2 - " + high + "m2"` splits at its first `m`, and both bounds read back. |
| BarMaker.CreateChartDataExp | app/support/barMaker.js:223-293 | The method's bars are the reference lease-expiry chart of the records' years. |
| BarMaker.CollectYears | app/support/barMaker.js:231-248 | The year of every record, in order. |
| BarMaker.EmptyYearBars | app/support/barMaker.js:275-281 | One empty bar per unique year, coloured by position. |
| BarMaker.CountYears | app/support/barMaker.js:283-289 | Each bar counts the records of its year. |
| BarMaker.YearBarsAt | app/support/barMaker.js:275-289 | Bar `i` is the `i`-th unique year with its number of occurrences and `color[i]`. |
| BarMaker.ExpChartYears | app/support/barMaker.js:254-289 | The bars are strictly ascending years other than 1970 that occur, each counting its records (at least one) and coloured by position. Every year other than 1970 has a bar. |
| BarMaker.ExpChartTotal | app/support/barMaker.js:283-289 | The counts add up to the number of records whose year is not 1970. |
| BarMaker.ComponentHexRoundTrip | app/support/barMaker.js:376-379 | A component from 0 to 255 gives two hex digits that read back as it. From 256 on it gives three digits or more. |
| BarMaker.RgbToHex | app/support/barMaker.js:359-374 | One `#rrggbb` string per colour, in order. |
| BarMaker.HexColorRoundTrip | app/support/barMaker.js:368 | For components from 0 to 255, the colour string has seven characters, and each pair of digits reads back as its component. |
| ChartHandlers.SceneState.ClickBin | app/support/barMaker.js:201-211 | The renderer becomes the bar's highlight gradient over its range, and both lighting switches go off. |
| ChartHandlers.SceneState.Reload | app/support/barMaker.js:213-219 | The renderer becomes the overview gradient of the selection, and both lighting switches go on. |
| ChartHandlers.SceneState.ClickYear | app/support/barMaker.js:340-354 | A coloured bar gives a value table over the year's characters, coloured by the colour string's characters, with the lighting off. A bar without colour throws and changes nothing. |
| ChartHandlers.YearTableMissesLongValues | app/support/barMaker.js:348 | In that table, every value not one character long gets the grey default. |
| ChartHandlers.YearTableHitsDigits | app/support/barMaker.js:348 | A digit of the year gets the colour string's character at the digit's first position. |
| StatsMaker.PickMostCommon | app/support/statsMaker.js:73-87 | The sort, sum and last-entry computation gives the reference most common category. |
| StatsMaker.MostCommonIsLargest | app/support/statsMaker.js:83-87 | The placeholder `"0ther"` comes exactly when the areas sum to 0. Otherwise the result is an entry of maximal area, the last among equals. |
| StatsMaker.NoAreaGivesPlaceholder | app/support/statsMaker.js:83-84 | An empty breakdown, or one of zero areas, gives `"0ther"`. |
| StatsMaker.AreaStats | app/support/statsMaker.js:118-134 | The figures computed on the sorted areas are the rounded largest area, the rounded total and the `n - 1` average. |
| StatsMaker.AddUp | app/support/statsMaker.js:122-124 | `totalArea += …` from null stays null for no areas, else it is the sum. |
| StatsMaker.SortedLastIsMax | app/support/statsMaker.js:118-120 | The last sorted area is the largest area. |
| StatsMaker.AreaMaxAtMostTotal | app/support/statsMaker.js:120-126 | For areas that are not negative, the rounded largest area is at most the rounded total. |
| StatsMaker.AverageOfTwo | app/support/statsMaker.js:128-130 | With two areas, the "average" is their rounded total. |
| StatsMaker.AverageExample | app/support/statsMaker.js:128-134 | Areas 10 and 20 average to 30. |
| StatsMaker.CollectFloors | app/support/statsMaker.js:140-148 | Null floors are skipped, numbers are kept, and strings are converted with `Number`. |
| StatsMaker.FloorStats | app/support/statsMaker.js:150-160 | The figures computed on the NaN-as-0 sorted floors are the reference highest floor and the NaN-as-0 `n - 1` average. |
| StatsMaker.FloorMaxOfNumbers | app/support/statsMaker.js:150-152 | With only numeric floors, the highest floor is a floor no other exceeds, rounded. |
| StatsMaker.FloorMaxNaNExample | app/support/statsMaker.js:145-152 | Floors `"-1"` and `"x"` give a highest floor of NaN. |
| StatsMaker.AverageFloorExample | app/support/statsMaker.js:65-67 | Floors 4, `"x"` and 2 average to 3: NaN adds 0 but still counts. |
| StatsMaker.UniqueLength | app/support/statsMaker.js:191-193 | The length of the `onlyUnique` filter is the number of distinct non-null values. |
| StatsMaker.DistinctCountBounds | app/support/statsMaker.js:179-212 | The distinct count is at most the number of records. It equals the non-null count exactly when the values are distinct. |
| StatsMaker.CreateStats | app/support/statsMaker.js:44-216 | It gives every figure of the panel, described in five parts below the table. |

StatsMaker.CreateStats gives:

- distinct building IDs, overwriting the record count;
- distinct whole buildings;
- null `numberofBuildings` and `nextReview`;
- the most common usage and tenancy;
- the area and floor figures.

## Left out

- The AmCharts chart configuration, DOM writes (`statsMaker.createChart`), the
  reload-button registration and the `console.info` logging: they are output
  only.
- The SDK classes: `UniqueValueRenderer`, `MeshSymbol3D` and
  `FillSymbol3DLayer` are plain datatypes, and what the scene does with a
  renderer is not modelled.
- ApplyRenderer.Lookup: an assumed reading of how `UniqueValueRenderer`
  matches a field value: exact string equality, the first matching entry
  wins, and otherwise the default symbol. The SDK's own matching is not part of
  this model. ValueTableLookup, YearTableMissesLongValues and
  YearTableHitsDigits, and the lease-expiry click quirk above, hold under this
  reading.
- `createSimpleRenderer`: a constant renderer that no modelled code uses.
- Date parsing: `new Date(x).getFullYear()` is a parameter `yearOf`, an
  arbitrary function from an attribute value to an integer year. An invalid
  date, whose year is NaN, is therefore not modelled.
- `nextExpiry`: it sorts JS Date objects by their string form and reads a
  settings field (`exactexpirydatename`) the configuration never defines.
  `nextReview` is always null and is modelled as such.
- The usage and tenancy breakdowns come from a chart module that is not part of
  this model. They are inputs of `StatsMaker.CreateStats`.
- An attribute missing from a feature is read as null: the model chooses this
  reading, since features from the layer query carry every out-field. The JS
  would see `undefined` there, which `!== null` lets through.
- A string in a numeric area field is read as null. Its JS comparison and
  subtraction would coerce it.
- JsValues.ParseNumber: `Number(s)` is modelled for an optional sign, decimal
  digits and at most one point, with `""` giving 0. Whitespace, exponents,
  hexadecimal and `"Infinity"` are not.
- IEEE floating point: areas and quotients are exact reals and integers are
  unbounded, so rounding error and overflow are not captured.
- BarMaker.Bin: the label is kept as its two rounded bounds, `BinLabel`.
  `LabelText` renders the exact string, and LabelTextReadsBack relates the two.
- BarMaker.CreateChartDataExp: the `bins` argument of `createChartData_exp`
  is unused by the source and is not a parameter.
- BarMaker.YearBin: years are integers, where the source holds their decimal
  strings. Comparisons of those strings agree with integer equality
  (NumberOfIntString).
- BarMaker.ComponentToHex: components are integers. A fractional component's
  `toString(16)` is not modelled.
- ChartHandlers.SceneState: it holds only the layer renderer and the two
  lighting switches the handlers write. The rest of the view is not modelled.
