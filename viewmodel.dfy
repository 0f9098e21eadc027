/** The view model handed from the transform to the renderer (src/viewmodel.ts). */
module ViewModel {

  /** One plotted point. `value` is the measure (a number in the source, an integer
      here); `category` is the point in time, as an integer timestamp. */
  datatype DataPoint = DataPoint(value: int, highlighted: bool, category: int)

  /** The plain value of a view model: the points of every series, in order, and
      the extrema used for the vertical domain. */
  datatype ViewModelState = ViewModelState(dataSeries: seq<seq<DataPoint>>, dataMax: int, dataMin: int)

  /** A series object. Its point list is reassigned in place by the slicer. */
  class DataSeries {
    var dataPoints: seq<DataPoint>

    constructor ()
      ensures dataPoints == []
    {
      dataPoints := [];
    }
  }

  /** The point lists of a list of series objects, in the same order. */
  function PointsOf(ss: seq<DataSeries>): (r: seq<seq<DataPoint>>)
    reads ss
    ensures |r| == |ss|
    ensures forall i :: 0 <= i < |ss| ==> r[i] == ss[i].dataPoints
  {
    if |ss| == 0 then [] else PointsOf(ss[..|ss| - 1]) + [ss[|ss| - 1].dataPoints]
  }

  /** The view model object: the transform fills it step by step and the renderer
      replaces its series list by the sliced one. */
  class LineChartViewModel {
    var dataSeries: seq<DataSeries>
    var dataMax: int
    var dataMin: int

    /** The empty view model `{dataSeries: [], dataMax: 0, dataMin: 0}`. */
    constructor ()
      ensures dataSeries == [] && dataMax == 0 && dataMin == 0
    {
      dataSeries := [];
      dataMax := 0;
      dataMin := 0;
    }

    /** The value this object currently holds. */
    function State(): (r: ViewModelState)
      reads this, dataSeries
    {
      ViewModelState(PointsOf(dataSeries), dataMax, dataMin)
    }
  }
}
