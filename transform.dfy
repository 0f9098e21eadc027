/** The data pipeline of `visualTransform` (src/visual.ts:201-266): the host's
    categorical table becomes one series of points per value column, plus the
    largest and smallest of 0 and every plotted value. */
module Transform {
  import opened Wrappers
  import opened ViewModel

  // ---------------------------------------------------------------------------
  // The host's input, reduced to what the transform reads
  // ---------------------------------------------------------------------------

  /** A category column. Only the presence of its `source` metadata is tested, so
      that metadata is a flag here; `values` are timestamps, None for null. */
  datatype CategoryColumn = CategoryColumn(hasSource: bool, values: seq<Option<int>>)

  /** A value (measure) column and its optional highlight array; a non-null
      highlight entry means the point is selected. */
  datatype ValueColumn = ValueColumn(values: seq<Option<int>>, highlights: Option<seq<Option<int>>>)

  datatype Categorical = Categorical(categories: Option<seq<CategoryColumn>>, values: Option<seq<ValueColumn>>)

  datatype DataView = DataView(categorical: Option<Categorical>)

  /** The update event's data views; any level may be missing. */
  datatype UpdateOptions = UpdateOptions(dataViews: Option<seq<Option<DataView>>>)

  /** The columns the transform works on once the guard has passed. */
  datatype Columns = Columns(category: CategoryColumn, values: seq<ValueColumn>)

  function Max(a: int, b: int): (r: int)
    ensures a <= r && b <= r
    ensures r == a || r == b
  {
    if a > b then a else b
  }

  /** The categorical part of the first data view, when every level up to it is present. */
  function FirstCategorical(o: UpdateOptions): (r: Option<Categorical>)
  {
    if o.dataViews.Some? && |o.dataViews.value| > 0 && o.dataViews.value[0].Some?
    then o.dataViews.value[0].value.categorical
    else None
  }

  /** The guard reads `categories[0].source` whenever `categories` is present, so
      an empty category list would throw there: callers must not pass one. */
  predicate CategoriesReadable(o: UpdateOptions)
  {
    var c := FirstCategorical(o);
    c.Some? && c.value.categories.Some? ==> |c.value.categories.value| > 0
  }

  /** The guard of the transform: the first category column and the value columns
      when data views, the first view, its categorical part, the category list, the
      first category's source and the value list are all present; None otherwise. */
  function Shape(o: UpdateOptions): (r: Option<Columns>)
    requires CategoriesReadable(o)
    ensures r.Some? <==>
      FirstCategorical(o).Some? && FirstCategorical(o).value.categories.Some? &&
      FirstCategorical(o).value.categories.value[0].hasSource && FirstCategorical(o).value.values.Some?
    ensures r.Some? ==>
      r.value.category == FirstCategorical(o).value.categories.value[0] &&
      r.value.values == FirstCategorical(o).value.values.value
  {
    match FirstCategorical(o)
    case None => None
    case Some(c) =>
      if c.categories.None? || !c.categories.value[0].hasSource || c.values.None? then None
      else Some(Columns(c.categories.value[0], c.values.value))
  }

  // ---------------------------------------------------------------------------
  // Specification of the series
  // ---------------------------------------------------------------------------

  /** The length of the longest value column (0 when there are none). */
  function Longest(cols: seq<ValueColumn>): (r: nat)
    ensures forall n :: 0 <= n < |cols| ==> |cols[n].values| <= r
  {
    if |cols| == 0 then 0 else Max(Longest(cols[..|cols| - 1]), |cols[|cols| - 1].values|)
  }

  lemma {:induction false} LongestIsMaximum(cols: seq<ValueColumn>)
    ensures forall c :: c in cols ==> |c.values| <= Longest(cols)
    ensures |cols| == 0 ==> Longest(cols) == 0
    ensures |cols| > 0 ==> exists c :: c in cols && |c.values| == Longest(cols)
  {
    if |cols| > 0 {
      var init := cols[..|cols| - 1];
      LongestIsMaximum(init);
      assert cols == init + [cols[|cols| - 1]];
      if |init| > 0 && Longest(init) >= |cols[|cols| - 1].values| {
        var c :| c in init && |c.values| == Longest(init);
        assert c in cols;
      } else {
        assert cols[|cols| - 1] in cols;
      }
    }
  }

  /** How far the point loop runs: the category column or the longest value
      column, whichever is longer. */
  function IterationLength(cols: Columns): (r: nat)
    ensures |cols.category.values| <= r && Longest(cols.values) <= r
    ensures r == |cols.category.values| || r == Longest(cols.values)
  {
    Max(|cols.category.values|, Longest(cols.values))
  }

  /** The highlight flag of index `i`: every point is highlighted when the column
      has no highlight array, otherwise exactly those with a non-null entry. */
  predicate Highlighted(col: ValueColumn, i: nat): (r: bool)
    ensures col.highlights.None? ==> r
    ensures col.highlights.Some? && |col.highlights.value| <= i ==> !r
  {
    col.highlights.None? || At(col.highlights.value, i).Some?
  }

  /** Index `i` yields a point when neither its category nor its value is null. */
  predicate Emits(category: CategoryColumn, col: ValueColumn, i: nat): (r: bool)
    ensures r ==> i < |category.values| && i < |col.values|
  {
    At(category.values, i).Some? && At(col.values, i).Some?
  }

  function PointAt(category: CategoryColumn, col: ValueColumn, i: nat): (r: DataPoint)
    requires Emits(category, col, i)
    ensures Some(r.value) == col.values[i] && Some(r.category) == category.values[i]
    ensures r.highlighted <==>
      col.highlights.None? || (i < |col.highlights.value| && col.highlights.value[i].Some?)
  {
    DataPoint(At(col.values, i).value, Highlighted(col, i), At(category.values, i).value)
  }

  /** The points the loop over indices `0 .. len-1` pushes for one value column. */
  function SeriesPoints(category: CategoryColumn, col: ValueColumn, len: nat): (r: seq<DataPoint>)
    ensures |r| <= len
    ensures col.highlights.None? ==> forall j :: 0 <= j < |r| ==> r[j].highlighted
  {
    if len == 0 then []
    else
      SeriesPoints(category, col, len - 1) +
      (if Emits(category, col, len - 1) then [PointAt(category, col, len - 1)] else [])
  }

  /** The indices that yield a point, in the order they are visited. */
  ghost function EmittedIndices(category: CategoryColumn, col: ValueColumn, len: nat): (r: seq<nat>)
  {
    if len == 0 then []
    else EmittedIndices(category, col, len - 1) + (if Emits(category, col, len - 1) then [len - 1] else [])
  }

  /** Point j of a series comes from the j-th index that has both a category and a
      value; those indices increase, and an index below `len` is among them
      exactly when neither its category nor its value is null. */
  lemma {:induction false} SeriesPointsByIndex(category: CategoryColumn, col: ValueColumn, len: nat)
    ensures |SeriesPoints(category, col, len)| == |EmittedIndices(category, col, len)|
    ensures forall j :: 0 <= j < |EmittedIndices(category, col, len)| ==>
      EmittedIndices(category, col, len)[j] < len &&
      Emits(category, col, EmittedIndices(category, col, len)[j]) &&
      SeriesPoints(category, col, len)[j] == PointAt(category, col, EmittedIndices(category, col, len)[j])
    ensures forall j, k :: 0 <= j < k < |EmittedIndices(category, col, len)| ==>
      EmittedIndices(category, col, len)[j] < EmittedIndices(category, col, len)[k]
    ensures forall i: nat :: i in EmittedIndices(category, col, len) <==> i < len && Emits(category, col, i)
  {
    if len > 0 {
      SeriesPointsByIndex(category, col, len - 1);
    }
  }

  // ---------------------------------------------------------------------------
  // Specification of the extrema
  // ---------------------------------------------------------------------------

  /** `d3.max` of a series' values: undefined (None) for an empty series. */
  function SeriesMax(points: seq<DataPoint>): (r: Option<int>)
    ensures r.None? <==> |points| == 0
    ensures r.Some? ==> forall k :: 0 <= k < |points| ==> points[k].value <= r.value
    ensures r.Some? ==> exists k :: 0 <= k < |points| && points[k].value == r.value
  {
    if |points| == 0 then None
    else
      var last := points[|points| - 1].value;
      match SeriesMax(points[..|points| - 1])
      case None => Some(last)
      case Some(m) => Some(if last > m then last else m)
  }

  /** `d3.min` of a series' values: undefined (None) for an empty series. */
  function SeriesMin(points: seq<DataPoint>): (r: Option<int>)
    ensures r.None? <==> |points| == 0
    ensures r.Some? ==> forall k :: 0 <= k < |points| ==> r.value <= points[k].value
    ensures r.Some? ==> exists k :: 0 <= k < |points| && points[k].value == r.value
  {
    if |points| == 0 then None
    else
      var last := points[|points| - 1].value;
      match SeriesMin(points[..|points| - 1])
      case None => Some(last)
      case Some(m) => Some(if last < m then last else m)
  }

  /** One step of the extrema loop: `d3.max` of a series replaces the running
      maximum when it is larger; an undefined maximum compares false. */
  function StepMax(current: int, seriesMax: Option<int>): (r: int)
    ensures current <= r
    ensures seriesMax.Some? ==> seriesMax.value <= r
    ensures r == current || (seriesMax.Some? && r == seriesMax.value)
  {
    if seriesMax.Some? && seriesMax.value > current then seriesMax.value else current
  }

  function StepMin(current: int, seriesMin: Option<int>): (r: int)
    ensures r <= current
    ensures seriesMin.Some? ==> r <= seriesMin.value
    ensures r == current || (seriesMin.Some? && r == seriesMin.value)
  {
    if seriesMin.Some? && seriesMin.value < current then seriesMin.value else current
  }

  /** `dataMax` after visiting the given series in order, starting from 0: a series
      replaces it when its maximum is larger; an empty series (undefined maximum)
      never does. */
  function DataMax(ss: seq<seq<DataPoint>>): (r: int)
    ensures 0 <= r
    ensures forall n :: 0 <= n < |ss| && SeriesMax(ss[n]).Some? ==> SeriesMax(ss[n]).value <= r
  {
    if |ss| == 0 then 0
    else
      StepMax(DataMax(ss[..|ss| - 1]), SeriesMax(ss[|ss| - 1]))
  }

  /** `dataMin` after visiting the given series in order, starting from 0. */
  function DataMin(ss: seq<seq<DataPoint>>): (r: int)
    ensures r <= 0
    ensures forall n :: 0 <= n < |ss| && SeriesMin(ss[n]).Some? ==> r <= SeriesMin(ss[n]).value
  {
    if |ss| == 0 then 0
    else
      StepMin(DataMin(ss[..|ss| - 1]), SeriesMin(ss[|ss| - 1]))
  }

  /** Visiting one more series is one step of the extrema loop. */
  lemma ExtremaStep(ss: seq<seq<DataPoint>>, k: nat)
    requires k < |ss|
    ensures DataMax(ss[..k + 1]) == StepMax(DataMax(ss[..k]), SeriesMax(ss[k]))
    ensures DataMin(ss[..k + 1]) == StepMin(DataMin(ss[..k]), SeriesMin(ss[k]))
  {
    assert ss[..k + 1][..k] == ss[..k];
  }

  /** `dataMax` is the maximum of 0 and every plotted value. */
  lemma {:induction false} DataMaxIsMaximum(ss: seq<seq<DataPoint>>)
    ensures 0 <= DataMax(ss)
    ensures forall n, j :: 0 <= n < |ss| && 0 <= j < |ss[n]| ==> ss[n][j].value <= DataMax(ss)
    ensures DataMax(ss) == 0 || exists n, j :: 0 <= n < |ss| && 0 <= j < |ss[n]| && ss[n][j].value == DataMax(ss)
  {
    if |ss| > 0 {
      var init := ss[..|ss| - 1];
      DataMaxIsMaximum(init);
      assert forall n :: 0 <= n < |init| ==> init[n] == ss[n];
      var sm := SeriesMax(ss[|ss| - 1]);
      if sm.Some? && sm.value > DataMax(init) {
        var j :| 0 <= j < |ss[|ss| - 1]| && ss[|ss| - 1][j].value == sm.value;
        assert ss[|ss| - 1][j].value == DataMax(ss);
      } else if DataMax(init) != 0 {
        var n, j :| 0 <= n < |init| && 0 <= j < |init[n]| && init[n][j].value == DataMax(init);
        assert ss[n][j].value == DataMax(ss);
      }
    }
  }

  /** `dataMin` is the minimum of 0 and every plotted value. */
  lemma {:induction false} DataMinIsMinimum(ss: seq<seq<DataPoint>>)
    ensures DataMin(ss) <= 0
    ensures forall n, j :: 0 <= n < |ss| && 0 <= j < |ss[n]| ==> DataMin(ss) <= ss[n][j].value
    ensures DataMin(ss) == 0 || exists n, j :: 0 <= n < |ss| && 0 <= j < |ss[n]| && ss[n][j].value == DataMin(ss)
  {
    if |ss| > 0 {
      var init := ss[..|ss| - 1];
      DataMinIsMinimum(init);
      assert forall n :: 0 <= n < |init| ==> init[n] == ss[n];
      var sm := SeriesMin(ss[|ss| - 1]);
      if sm.Some? && sm.value < DataMin(init) {
        var j :| 0 <= j < |ss[|ss| - 1]| && ss[|ss| - 1][j].value == sm.value;
        assert ss[|ss| - 1][j].value == DataMin(ss);
      } else if DataMin(init) != 0 {
        var n, j :| 0 <= n < |init| && 0 <= j < |init[n]| && init[n][j].value == DataMin(init);
        assert ss[n][j].value == DataMin(ss);
      }
    }
  }

  // ---------------------------------------------------------------------------
  // The whole transform, as a value
  // ---------------------------------------------------------------------------

  /** One point list per value column, in column order. */
  function AllSeriesPoints(cols: Columns): (r: seq<seq<DataPoint>>)
    ensures |r| == |cols.values|
    ensures forall n :: 0 <= n < |r| ==> r[n] == SeriesPoints(cols.category, cols.values[n], IterationLength(cols))
  {
    seq(|cols.values|, n requires 0 <= n < |cols.values| => SeriesPoints(cols.category, cols.values[n], IterationLength(cols)))
  }

  /** The view model `visualTransform` builds: the empty one when the guard fails,
      else one series per value column and the largest and smallest of 0 and
      every value in them. */
  function TransformState(o: UpdateOptions): (r: ViewModelState)
    requires CategoriesReadable(o)
    ensures Shape(o).None? ==> r == ViewModelState([], 0, 0)
    ensures Shape(o).Some? ==> |r.dataSeries| == |Shape(o).value.values|
    ensures Shape(o).Some? ==> forall n :: 0 <= n < |r.dataSeries| ==>
      r.dataSeries[n] == SeriesPoints(Shape(o).value.category, Shape(o).value.values[n], IterationLength(Shape(o).value))
    ensures r.dataMax == DataMax(r.dataSeries) && r.dataMin == DataMin(r.dataSeries)
  {
    match Shape(o)
    case None => ViewModelState([], 0, 0)
    case Some(cols) =>
      var series := AllSeriesPoints(cols);
      ViewModelState(series, DataMax(series), DataMin(series))
  }

  /** The extrema bracket 0 and every plotted value. */
  lemma TransformExtremaBracketValues(o: UpdateOptions)
    requires CategoriesReadable(o)
    ensures TransformState(o).dataMin <= 0 <= TransformState(o).dataMax
    ensures forall n, j :: 0 <= n < |TransformState(o).dataSeries| && 0 <= j < |TransformState(o).dataSeries[n]| ==>
      TransformState(o).dataMin <= TransformState(o).dataSeries[n][j].value <= TransformState(o).dataMax
  {
    DataMaxIsMaximum(TransformState(o).dataSeries);
    DataMinIsMinimum(TransformState(o).dataSeries);
  }

  /** The point loop of the worked case below: index 1 has a null value and is
      skipped, the other two are kept and highlighted. */
  lemma ExampleSeriesPoints()
    ensures SeriesPoints(CategoryColumn(true, [Some(1), Some(2), Some(3)]), ValueColumn([Some(10), None, Some(30)], None), 3)
      == [DataPoint(10, true, 1), DataPoint(30, true, 3)]
  {
    var category := CategoryColumn(true, [Some(1), Some(2), Some(3)]);
    var col := ValueColumn([Some(10), None, Some(30)], None);
    assert SeriesPoints(category, col, 1) == [DataPoint(10, true, 1)];
    assert SeriesPoints(category, col, 2) == [DataPoint(10, true, 1)];
  }

  /** The extrema loop of the worked case below: the maximum rises to 30, the
      minimum stays at its seed 0. */
  lemma ExampleExtrema()
    ensures DataMax([[DataPoint(10, true, 1), DataPoint(30, true, 3)]]) == 30
    ensures DataMin([[DataPoint(10, true, 1), DataPoint(30, true, 3)]]) == 0
  {
    var points := [DataPoint(10, true, 1), DataPoint(30, true, 3)];
    assert SeriesMax(points) == Some(30) && SeriesMin(points) == Some(10) by {
      assert points[..1] == [DataPoint(10, true, 1)];
      assert points[..1][..0] == [];
    }
    var series: seq<seq<DataPoint>> := [points];
    assert series[..0] == [];
  }

  /** A worked case: categories at times 1, 2, 3 and one unhighlighted column with
      values 10, null, 30 give one series of two highlighted points; the minimum
      stays at its seed 0. */
  lemma TransformExample()
    ensures
      var o := UpdateOptions(Some([Some(DataView(Some(Categorical(
        Some([CategoryColumn(true, [Some(1), Some(2), Some(3)])]),
        Some([ValueColumn([Some(10), None, Some(30)], None)])))))]));
      TransformState(o) == ViewModelState([[DataPoint(10, true, 1), DataPoint(30, true, 3)]], 30, 0)
  {
    var category := CategoryColumn(true, [Some(1), Some(2), Some(3)]);
    var col := ValueColumn([Some(10), None, Some(30)], None);
    assert Longest([col]) == 3 by {
      assert [col][..0] == [];
    }
    ExampleSeriesPoints();
    ExampleExtrema();
    var o := UpdateOptions(Some([Some(DataView(Some(Categorical(Some([category]), Some([col])))))]));
    assert Shape(o) == Some(Columns(category, [col]));
    assert AllSeriesPoints(Columns(category, [col])) == [[DataPoint(10, true, 1), DataPoint(30, true, 3)]];
  }

  // ---------------------------------------------------------------------------
  // The imperative transform
  // ---------------------------------------------------------------------------

  /** The first loop of the transform: the length of the longest value column. */
  method LongestSeriesLength(dataValues: seq<ValueColumn>) returns (longestSeriesLength: nat)
    ensures longestSeriesLength == Longest(dataValues)
  {
    longestSeriesLength := 0;
    for k := 0 to |dataValues|
      invariant longestSeriesLength == Longest(dataValues[..k])
    {
      assert dataValues[..k + 1][..k] == dataValues[..k];
      var series := dataValues[k];
      longestSeriesLength := if |series.values| > longestSeriesLength then |series.values| else longestSeriesLength;
    }
    assert dataValues[..|dataValues|] == dataValues;
  }

  /** The body of the loop over value columns: a new series holding the points
      of column `col` for the indices `0 .. len-1`. */
  method BuildSeries(category: CategoryColumn, col: ValueColumn, len: nat) returns (series: DataSeries)
    ensures fresh(series)
    ensures series.dataPoints == SeriesPoints(category, col, len)
  {
    series := new DataSeries();
    for i := 0 to len
      modifies series
      invariant series.dataPoints == SeriesPoints(category, col, i)
    {
      // Without a highlight array every point is highlighted.
      var h := true;
      if col.highlights.Some? {
        if At(col.highlights.value, i).None? {
          h := false;
        }
      }
      // Indices with a null category or a null value are skipped.
      if At(category.values, i).None? {
        continue;
      }
      if At(col.values, i).None? {
        continue;
      }
      series.dataPoints := series.dataPoints +
        [DataPoint(At(col.values, i).value, h, At(category.values, i).value)];
    }
  }

  /** `visualTransform`: builds a fresh view model whose value is `TransformState(o)`. */
  method VisualTransform(o: UpdateOptions) returns (viewModel: LineChartViewModel)
    requires CategoriesReadable(o)
    ensures fresh(viewModel)
    ensures fresh(viewModel.dataSeries)
    ensures viewModel.State() == TransformState(o)
  {
    viewModel := new LineChartViewModel();
    var shape := Shape(o);
    if shape.None? {
      return;
    }
    var category, dataValues := shape.value.category, shape.value.values;

    ghost var expected := AllSeriesPoints(shape.value);

    var longestSeriesLength := LongestSeriesLength(dataValues);
    var len := Max(|category.values|, longestSeriesLength);
    for n := 0 to |dataValues|
      invariant fresh(viewModel.dataSeries)
      invariant |viewModel.dataSeries| == n
      invariant forall k :: 0 <= k < n ==> viewModel.dataSeries[k].dataPoints == expected[k]
      invariant viewModel.dataMax == 0 && viewModel.dataMin == 0
    {
      var series := BuildSeries(category, dataValues[n], len);
      viewModel.dataSeries := viewModel.dataSeries + [series];
    }
    assert PointsOf(viewModel.dataSeries) == expected;
    SetExtrema(viewModel);
    assert PointsOf(viewModel.dataSeries) == expected;
    assert TransformState(o) == ViewModelState(expected, DataMax(expected), DataMin(expected));
  }

  /** The last loop of the transform: starting from 0, raise `dataMax` to each
      series' maximum and lower `dataMin` to each series' minimum. */
  method SetExtrema(viewModel: LineChartViewModel)
    requires viewModel.dataMax == 0 && viewModel.dataMin == 0
    modifies viewModel`dataMax, viewModel`dataMin
    ensures viewModel.dataMax == DataMax(PointsOf(viewModel.dataSeries))
    ensures viewModel.dataMin == DataMin(PointsOf(viewModel.dataSeries))
  {
    ghost var points := PointsOf(viewModel.dataSeries);
    for k := 0 to |viewModel.dataSeries|
      invariant viewModel.dataMax == DataMax(points[..k])
      invariant viewModel.dataMin == DataMin(points[..k])
    {
      var series := viewModel.dataSeries[k];
      assert series.dataPoints == points[k];
      ExtremaStep(points, k);
      var maxValue := SeriesMax(series.dataPoints);
      if maxValue.Some? && maxValue.value > viewModel.dataMax {
        viewModel.dataMax := maxValue.value;
      }
      var minValue := SeriesMin(series.dataPoints);
      if minValue.Some? && minValue.value < viewModel.dataMin {
        viewModel.dataMin := minValue.value;
      }
    }
    assert points[..|points|] == points;
  }
}
