/** `sliceDataView` (src/visual.ts:176-190): every series is cut back, in place,
    to the prefix that ends at its last highlighted point. */
module Slicer {
  import opened Wrappers
  import opened ViewModel

  /** Index of the last highlighted point, None when no point is highlighted
      (`selectionIndex` stays undefined). */
  function LastHighlighted(points: seq<DataPoint>): (r: Option<nat>)
    ensures r.Some? ==> r.value < |points| && points[r.value].highlighted
    ensures r.Some? ==> forall j :: r.value < j < |points| ==> !points[j].highlighted
    ensures r.None? ==> forall j :: 0 <= j < |points| ==> !points[j].highlighted
  {
    if |points| == 0 then None
    else if points[|points| - 1].highlighted then Some(|points| - 1)
    else LastHighlighted(points[..|points| - 1])
  }

  /** The end argument `selectionIndex + 1` of `slice(0, end)`. With no selection
      it is `undefined + 1`, which is NaN, and `slice` reads NaN as 0. */
  function SliceEnd(selectionIndex: Option<nat>): (r: nat)
    ensures r == 0 <==> selectionIndex.None?
    ensures selectionIndex.Some? ==> selectionIndex.value < r
  {
    match selectionIndex
    case None => 0
    case Some(k) => k + 1
  }

  /** The point list a series keeps: a prefix of the original that ends at its last
      highlighted point, so that no dropped point is highlighted; empty exactly
      when no point is highlighted. */
  function Sliced(points: seq<DataPoint>): (r: seq<DataPoint>)
    ensures r <= points
    ensures |r| > 0 ==> r[|r| - 1].highlighted
    ensures forall j :: |r| <= j < |points| ==> !points[j].highlighted
    ensures r == [] <==> forall j :: 0 <= j < |points| ==> !points[j].highlighted
  {
    points[..SliceEnd(LastHighlighted(points))]
  }

  /** The point lists left after slicing every series. */
  function SlicedAll(ss: seq<seq<DataPoint>>): (r: seq<seq<DataPoint>>)
    ensures |r| == |ss|
    ensures forall n :: 0 <= n < |ss| ==> r[n] == Sliced(ss[n])
    ensures forall n :: 0 <= n < |ss| ==> r[n] <= ss[n]
  {
    seq(|ss|, n requires 0 <= n < |ss| => Sliced(ss[n]))
  }

  /** Slicing an already sliced series changes nothing. */
  lemma SlicedIdempotent(points: seq<DataPoint>)
    ensures Sliced(Sliced(points)) == Sliced(points)
  {
    var r := Sliced(points);
    if |r| > 0 {
      assert LastHighlighted(r) == Some(|r| - 1);
    }
  }

  /** The backward scan: the index of the last highlighted point, if any. */
  method FindSelectionIndex(points: seq<DataPoint>) returns (selectionIndex: Option<nat>)
    ensures selectionIndex == LastHighlighted(points)
  {
    selectionIndex := None;
    var i := |points| - 1;
    while i >= 0
      invariant -1 <= i < |points|
      invariant forall j :: i < j < |points| ==> !points[j].highlighted
    {
      if points[i].highlighted {
        selectionIndex := Some(i);
        break;
      }
      i := i - 1;
    }
  }

  /** `sliceDataView`: each series object's point list is replaced by its sliced
      prefix; the list itself (count and order of series) is returned unchanged.
      The same object may occur twice in the list: slicing it again is harmless. */
  method SliceDataView(series: seq<DataSeries>) returns (r: seq<DataSeries>)
    modifies series
    ensures r == series
    ensures forall s :: s in series ==> s.dataPoints == Sliced(old(s.dataPoints))
    ensures PointsOf(series) == SlicedAll(old(PointsOf(series)))
  {
    for k := 0 to |series|
      invariant forall s :: s in series ==>
        s.dataPoints == old(s.dataPoints) || s.dataPoints == Sliced(old(s.dataPoints))
      invariant forall j :: 0 <= j < k ==> series[j].dataPoints == Sliced(old(series[j].dataPoints))
    {
      var s := series[k];
      SlicedIdempotent(old(s.dataPoints));
      var selectionIndex := FindSelectionIndex(s.dataPoints);
      s.dataPoints := s.dataPoints[..SliceEnd(selectionIndex)];
    }
    r := series;
    ghost var before := old(PointsOf(series));
    forall j | 0 <= j < |series|
      ensures PointsOf(series)[j] == SlicedAll(before)[j]
    {
      assert before[j] == old(series[j].dataPoints);
    }
  }

  /** Flags [true, false, true, false] keep the first three points. */
  lemma SlicedExample(a: DataPoint, b: DataPoint, c: DataPoint, d: DataPoint)
    requires a.highlighted && !b.highlighted && c.highlighted && !d.highlighted
    ensures Sliced([a, b, c, d]) == [a, b, c]
  {
    assert LastHighlighted([a, b, c, d]) == Some(2);
  }
}
