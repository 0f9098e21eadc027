# Incrementally highlighted multi-line chart: data pipeline model

This project models the data pipeline of a time-series line chart visual for a
business-intelligence host. On each update the host passes categorical data:
one category column of dates and N measure columns, each with an optional
highlight array. The visual first turns that data into a view model: one series
of `(value, highlighted, category)` points per measure column, plus the largest
and smallest of 0 and every plotted value. It then cuts every series back to its last
highlighted point. The renderer draws the sliced series over a vertical domain
taken from forced settings or from the view model's extrema.

Modules:

- `Wrappers` (wrappers.dfy): `Option`, which stands for JavaScript null and
  undefined. `At` reads an array index, and an index past the end reads as
  missing.
- `ViewModel` (viewmodel.dfy): the view-model types. `DataPoint` is a value.
  `DataSeries` is a class because the slicer reassigns its `dataPoints` in
  place. `LineChartViewModel` is a class because the transform updates
  `dataMax`/`dataMin` in a loop and `render` reassigns `dataSeries`.
  `ViewModelState` is the plain value a view model object holds.
- `Transform` (transform.dfy): `visualTransform`. It has the host input types,
  the guard, a specification of every series and of the extrema as functions,
  lemmas about those functions, and the imperative method. The method runs the
  source's loops and is proved to build exactly `TransformState(o)`.
- `Slicer` (slicer.dfy): `sliceDataView`. It has the backward scan for the last
  highlighted point, the prefix it keeps, and the in-place method over series
  objects.
- `Rendering` (rendering.dfy): the parts of `render` that are not library
  calls. These are the `||` fallbacks for the stroke widths, the vertical
  domain, and the slicing of the view model. It also holds the format choice
  in `formatTicks`.

Numbers are integers and dates are integer timestamps. A host value that is null
or undefined is `None`.

## Model

| member | source | states |
|---|---|---|
| `Transform.Shape` | src/visual.ts:210-216 | The guard passes exactly when the data views, the first view, its categorical part, the category list, the first category's `source` and the value list are all present. It then yields the first category column and the value columns. |
| `Transform.AllSeriesPoints` | src/visual.ts:227-257 | There is one point list per value column, in column order, and list n holds the points of column n over the full iteration length. |
| `Transform.TransformState` | src/visual.ts:201-266 | When the guard fails the view model is `{[], 0, 0}`. Otherwise there is one series per value column, in column order, and series n holds the points of column n. `dataMax`/`dataMin` are the loop's extrema over those series. |
| `Transform.LongestIsMaximum` | src/visual.ts:222-226 | The longest-column length is at least every column's length. It is 0 with no columns, and otherwise equals the length of some column. |
| `Transform.LongestSeriesLength` | src/visual.ts:223-226 | The first loop computes the longest-column length. |
| `Transform.SeriesPointsByIndex` | src/visual.ts:232-255 | Point j of a series comes from the j-th index that has both a category and a value. Those indices increase strictly. An index is used exactly when it is below max(category length, longest column) and neither read is null, where a read past the end counts as null. |
| `Transform.Max` | src/visual.ts:232 | `Math.max`: at least both arguments, and equal to one of them. |
| `Transform.Longest` | src/visual.ts:223-226 | The longest-column length bounds the length of every value column. |
| `Transform.IterationLength` | src/visual.ts:232 | The point loop runs to `Math.max(category length, longest column)`: at least both lengths and equal to one of them. |
| `Transform.Highlighted` | src/visual.ts:235-240 | Without a highlight array every index is highlighted. With one, an index past its end reads as null, so it is not highlighted. |
| `Transform.Emits` | src/visual.ts:242-249 | An index yields a point only when it is inside both the category column and the value column. |
| `Transform.PointAt` | src/visual.ts:250-254 | The pushed point carries the i-th value and the i-th category. It is highlighted exactly when the column has no highlight array or its i-th highlight entry is non-null. |
| `Transform.SeriesPoints` | src/visual.ts:228-255 | The loop over `len` indices yields at most `len` points. When the column has no highlight array, every point is highlighted. |
| `Transform.SeriesMax` | src/visual.ts:260 | `d3.max` of a series is undefined exactly for an empty series. Otherwise it is one of the series' values and at least every value. |
| `Transform.SeriesMin` | src/visual.ts:262 | `d3.min` of a series is undefined exactly for an empty series. Otherwise it is one of the series' values and at most every value. |
| `Transform.StepMax` | src/visual.ts:261 | One step of the running maximum: the result is at least the running value and the series maximum when defined, and equals one of them. An undefined maximum leaves it unchanged. |
| `Transform.StepMin` | src/visual.ts:263 | One step of the running minimum: the result is at most the running value and the series minimum when defined, and equals one of them. |
| `Transform.DataMax` | src/visual.ts:258-264 | The loop's `dataMax` is at least 0 and at least the maximum of every non-empty series. |
| `Transform.DataMin` | src/visual.ts:258-264 | The loop's `dataMin` is at most 0 and at most the minimum of every non-empty series. |
| `Transform.ExtremaStep` | src/visual.ts:259-264 | One more series moves the running maximum and minimum exactly as one pass of the extrema loop does. |
| `Transform.DataMaxIsMaximum` | src/visual.ts:258-264 | `dataMax` is at least 0 and at least every plotted value. It is either 0 or one of the values. |
| `Transform.DataMinIsMinimum` | src/visual.ts:258-264 | `dataMin` is at most 0 and at most every plotted value. It is either 0 or one of the values. |
| `Transform.TransformExtremaBracketValues` | src/visual.ts:205-264 | In the transform's result, `dataMin <= 0 <= dataMax`, and every plotted value lies between them. |
| `Transform.ExampleSeriesPoints` | src/visual.ts:232-255 | For categories 1, 2, 3 and values 10, null, 30 with no highlights, the point loop skips the null index and keeps (10, 1) and (30, 3), both highlighted. |
| `Transform.ExampleExtrema` | src/visual.ts:258-264 | For one series with values 10 and 30, the loop raises `dataMax` to 30 and leaves `dataMin` at its seed 0. |
| `Transform.TransformExample` | src/visual.ts:201-266 | Categories 1, 2, 3 with values 10, null, 30 and no highlights give one series (10, 1) (30, 3), all highlighted, with `dataMax` 30 and `dataMin` 0. |
| `Transform.BuildSeries` | src/visual.ts:228-255 | The point loop for one column fills a new series object with exactly that column's specified points. |
| `Transform.VisualTransform` | src/visual.ts:201-266 | The method returns a new view model, with new series objects, whose value is `TransformState(o)`. |
| `Transform.SetExtrema` | src/visual.ts:258-264 | The extrema loop sets `dataMax`/`dataMin` to their specified values. It changes no other field. |
| `ViewModel.DataSeries.constructor` | src/visual.ts:228-230 | A new series object starts with no points. |
| `ViewModel.PointsOf` | src/viewmodel.ts:8-10 | The point lists of a list of series objects, one per object and in the same order. |
| `ViewModel.LineChartViewModel.constructor` | src/visual.ts:205-209 | The empty view model has no series and both extrema at 0. |
| `Slicer.LastHighlighted` | src/visual.ts:178-185 | The selection index is the last highlighted point: it is highlighted and none after it is. It is absent exactly when no point is highlighted. |
| `Slicer.FindSelectionIndex` | src/visual.ts:178-185 | The backward scan with `break` finds the last highlighted index, or none. |
| `Slicer.SliceEnd` | src/visual.ts:187 | The end of the kept slice is 0 exactly when no point is selected, because `undefined + 1` is NaN and `slice` reads NaN as 0. Otherwise the end is past the selected point, so that point is kept. |
| `Slicer.Sliced` | src/visual.ts:186-187 | The kept list is a prefix of the original. When it is non-empty its last point is highlighted. No dropped point is highlighted. It is empty exactly when no point is highlighted, because `slice(0, undefined + 1)` is `slice(0, 0)`. |
| `Slicer.SlicedIdempotent` | src/visual.ts:180-187 | Slicing a sliced series changes nothing. |
| `Slicer.SlicedExample` | src/visual.ts:180-187 | Flags true, false, true, false keep the first three points. |
| `Slicer.SlicedAll` | src/visual.ts:177-189 | Slicing keeps the number and order of series. Series n becomes the slice of series n, which is a prefix of its points. |
| `Slicer.SliceDataView` | src/visual.ts:176-190 | The method returns the same list. Every series object in it, even one listed twice, now holds the slice of its old points. The list's point lists are the slices of the old ones, in order. |
| `Rendering.OrDefault` | src/visual.ts:58-59 | The JavaScript fallback for a number: a set, non-zero setting is kept. An unset or 0 setting gives the fallback. The result is never 0 when the fallback is not 0. |
| `Rendering.DataLineWidth` | src/visual.ts:58 | The line width is the setting when it is set and non-zero, else 4. It is never 0. |
| `Rendering.AxisLineWidth` | src/visual.ts:59 | The axis width is the setting when it is set and non-zero, else 2. It is never 0. |
| `Rendering.VerticalDomain` | src/visual.ts:66-69 | The upper bound is the forced `yMax`, or else `dataMax`, plus the padding of 10 (applied at line 89). The lower bound is the forced `yMin`, or else `dataMin`. The domain is non-empty when nothing is forced and `dataMin <= dataMax`, or when both bounds are forced with `yMin < yMax`. |
| `Rendering.PlottedPointsInsideDomain` | src/visual.ts:66-97 | With no forced bounds the domain is non-empty. Every point still plotted after slicing lies in it, at least the padding below its top. |
| `Rendering.LayoutOf` | src/visual.ts:58-69 | The widths `render` uses are never 0, and with no forced bounds the vertical domain of the transform's view model is non-empty. |
| `Rendering.SliceViewModel` | src/visual.ts:97 | The view model's point lists become the slices of its old ones, in order. Only the series list and the series objects change, so the extrema stay as they were. |
| `Rendering.Render` | src/visual.ts:54-97 | The widths and the vertical domain come from the settings and the unsliced view model. Afterwards the view model holds the sliced series of the transform's result, and `dataMax`/`dataMin` still hold the transform's extrema. |
| `Rendering.FormatTicks` | src/visual.ts:269-279 | The empty format keeps the tick value unchanged. "K" and "M" choose the thousands and millions labels. Any other format gives undefined. |

## Left out

- Drawing: the d3 scales, axes, line generator, SVG markup, styling and margins (src/visual.ts:82-169). They belong to the external charting library and the DOM.
- Render: the horizontal domain (src/visual.ts:76-77) is not modelled. It reads the first and last category of the first series. The source throws there when the view model has no series or its first series is empty. The model's `Render` does not fail in those cases.
- The per-series colour read through an unsafe cast of the host palette (src/visual.ts:116-125). These are host internals.
- `update`, `parseSettings`, `enumerateObjectInstances` and src/settings.ts. They hold static defaults and delegate to a host parsing library. Only the chart settings `render` reads are a datatype here (`ChartSettings`): the forced bounds and widths, and `yTickFormat`, which the vertical axis passes to `formatTicks` (src/visual.ts:90). The tick count is not modelled because `render` never reads it.
- `console.warn` on skipped indices (src/visual.ts:243, 247). These are I/O only.
- FormatTicks: the label text for "K" and "M" is not modelled. The source divides by 1e3 or 1e6 in floating point and rounds with d3's `.0f` format. The model returns only the choice of unit and the tick value.
- Numbers: measures, forced bounds and widths are integers. NaN, infinities and fractional values are not modelled. Because NaN is left out, the fallback `lineWidth || 4` treats only unset and 0 as falsy.
- Dates: categories are integer timestamps. Date objects and their parsing are not modelled.
- The category column's `source` metadata: only whether it is present is modelled.
- Highlight entries are optional integers. Only whether an entry is null is used.
- The source sets no input length limits, so the model has none.

Source behaviour worth noting:

- The series type has only `dataPoints`, with no name (src/viewmodel.ts:8-10).
- An empty value-column list gets past the guard at src/visual.ts:215. The loops then give the same empty view model as a failed guard.
- `VisualTransform` requires a non-empty category list whenever the list is present (`CategoriesReadable`). The guard reads `categories[0].source` without a length check, so an empty list throws in the source.
