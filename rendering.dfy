/** The pure pieces of `render` (src/visual.ts:54-97) that do not go through the
    charting library: stroke widths, the vertical domain, the slicing of the view
    model, and the tick-label format choice (src/visual.ts:269-279). */
module Rendering {
  import opened Wrappers
  import opened ViewModel
  import opened Transform
  import opened Slicer

  /** The chart settings `render` reads (src/settings.ts); unset means None.
      `yTickFormat` is the format the vertical axis passes to `FormatTicks`. */
  datatype ChartSettings = ChartSettings(
    yMin: Option<int>, yMax: Option<int>,
    lineWidth: Option<int>, axisWidth: Option<int>,
    yTickFormat: string)

  /** The vertical domain `[lo, hi]` handed to the linear scale. */
  datatype Domain = Domain(lo: int, hi: int)

  /** Everything `render` computes for the chart before drawing. */
  datatype Layout = Layout(dataLineWidth: int, axisLineWidth: int, vertical: Domain)

  const DefaultLineWidth := 4
  const DefaultAxisWidth := 2
  const VerticalValuePadding := 10

  /** JavaScript `setting || fallback` on a number: unset and 0 are both falsy,
      so both give the fallback; any other value is kept. */
  function OrDefault(setting: Option<int>, fallback: int): (r: int)
    ensures setting.Some? && setting.value != 0 ==> r == setting.value
    ensures setting.None? || setting.value == 0 ==> r == fallback
    ensures fallback != 0 ==> r != 0
  {
    if setting.None? || setting.value == 0 then fallback else setting.value
  }

  function DataLineWidth(settings: ChartSettings): (r: int)
    ensures r != 0
    ensures settings.lineWidth.Some? && settings.lineWidth.value != 0 ==> r == settings.lineWidth.value
    ensures settings.lineWidth.None? || settings.lineWidth.value == 0 ==> r == DefaultLineWidth
  {
    OrDefault(settings.lineWidth, DefaultLineWidth)
  }

  function AxisLineWidth(settings: ChartSettings): (r: int)
    ensures r != 0
    ensures settings.axisWidth.Some? && settings.axisWidth.value != 0 ==> r == settings.axisWidth.value
    ensures settings.axisWidth.None? || settings.axisWidth.value == 0 ==> r == DefaultAxisWidth
  {
    OrDefault(settings.axisWidth, DefaultAxisWidth)
  }

  /** The vertical domain: a forced bound overrides the computed extremum on its
      side, and the upper bound is padded. With no forced bound the domain is never
      empty, since the view model keeps `dataMin <= 0 <= dataMax`. */
  function VerticalDomain(settings: ChartSettings, dataMax: int, dataMin: int): (r: Domain)
    ensures r.hi == (if settings.yMax.Some? then settings.yMax.value else dataMax) + VerticalValuePadding
    ensures r.lo == (if settings.yMin.Some? then settings.yMin.value else dataMin)
    ensures settings.yMin.None? && settings.yMax.None? && dataMin <= dataMax ==> r.lo < r.hi
    ensures settings.yMin.Some? && settings.yMax.Some? && settings.yMin.value < settings.yMax.value ==> r.lo < r.hi
  {
    var maxVertical := if settings.yMax.Some? then settings.yMax.value else dataMax;
    var minVertical := if settings.yMin.Some? then settings.yMin.value else dataMin;
    Domain(minVertical, maxVertical + VerticalValuePadding)
  }

  /** The layout `render` derives from the settings and the unsliced view model. */
  function LayoutOf(o: UpdateOptions, settings: ChartSettings): (r: Layout)
    requires CategoriesReadable(o)
    ensures r.dataLineWidth != 0 && r.axisLineWidth != 0
    ensures settings.yMin.None? && settings.yMax.None? ==> r.vertical.lo < r.vertical.hi
  {
    TransformExtremaBracketValues(o);
    var vm := TransformState(o);
    Layout(DataLineWidth(settings), AxisLineWidth(settings), VerticalDomain(settings, vm.dataMax, vm.dataMin))
  }

  /** Without forced bounds, every point still plotted after slicing lies inside
      the vertical domain, at least the padding below its top. */
  lemma PlottedPointsInsideDomain(o: UpdateOptions, settings: ChartSettings)
    requires CategoriesReadable(o)
    requires settings.yMin.None? && settings.yMax.None?
    ensures LayoutOf(o, settings).vertical.lo < LayoutOf(o, settings).vertical.hi
    ensures forall n, j ::
      0 <= n < |SlicedAll(TransformState(o).dataSeries)| && 0 <= j < |SlicedAll(TransformState(o).dataSeries)[n]| ==>
        LayoutOf(o, settings).vertical.lo <= SlicedAll(TransformState(o).dataSeries)[n][j].value &&
        SlicedAll(TransformState(o).dataSeries)[n][j].value + VerticalValuePadding <= LayoutOf(o, settings).vertical.hi
  {
    var vm: ViewModelState := TransformState(o);
    TransformExtremaBracketValues(o);
    var plotted: seq<seq<DataPoint>> := SlicedAll(vm.dataSeries);
    forall n: nat, j: nat | n < |plotted| && j < |plotted[n]|
      ensures vm.dataMin <= plotted[n][j].value <= vm.dataMax
    {
      assert plotted[n][j] == vm.dataSeries[n][j];
    }
  }

  /** The last step of `render`: the view model's series list is replaced by the
      sliced one; its extrema stay as the transform left them. */
  method SliceViewModel(vm: LineChartViewModel)
    modifies vm`dataSeries, vm.dataSeries
    ensures PointsOf(vm.dataSeries) == SlicedAll(old(PointsOf(vm.dataSeries)))
  {
    var sliced := SliceDataView(vm.dataSeries);
    vm.dataSeries := sliced;
  }

  /** `render` up to the drawing: transform, widths, vertical domain, then the view
      model's series list is replaced by the sliced one. */
  method Render(o: UpdateOptions, chartSettings: ChartSettings) returns (vm: LineChartViewModel, layout: Layout)
    requires CategoriesReadable(o)
    ensures fresh(vm)
    ensures layout == LayoutOf(o, chartSettings)
    ensures PointsOf(vm.dataSeries) == SlicedAll(TransformState(o).dataSeries)
    ensures vm.dataMax == TransformState(o).dataMax && vm.dataMin == TransformState(o).dataMin
  {
    vm := VisualTransform(o);
    var dataLineWidth := OrDefault(chartSettings.lineWidth, DefaultLineWidth);
    var axisLineWidth := OrDefault(chartSettings.axisWidth, DefaultAxisWidth);
    var vertical := VerticalDomain(chartSettings, vm.dataMax, vm.dataMin);
    layout := Layout(dataLineWidth, axisLineWidth, vertical);
    SliceViewModel(vm);
  }

  /** The label kind `formatTicks` chooses for a tick value. */
  datatype TickLabel = Unformatted(tick: int) | Thousands(tick: int) | Millions(tick: int)

  /** `formatTicks`: the empty format keeps the tick as it is, "K" and "M" choose
      thousands and millions, and any other format yields undefined (None). */
  function FormatTicks(d: int, format: string): (r: Option<TickLabel>)
    ensures r.None? <==> format != "" && format != "K" && format != "M"
    ensures format == "" ==> r == Some(Unformatted(d))
    ensures format == "K" ==> r == Some(Thousands(d))
    ensures format == "M" ==> r == Some(Millions(d))
    ensures r.Some? ==> r.value.tick == d
  {
    if format == "" then Some(Unformatted(d))
    else if format == "K" then Some(Thousands(d))
    else if format == "M" then Some(Millions(d))
    else None
  }
}
