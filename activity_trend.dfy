/** The activity trend chart: the series scaled between 90% of its minimum
    and 110% of its maximum into a 100 x 50 box, and drawn as a smooth
    cardinal-spline curve with an area under it. */
module ActivityTrend {
  import opened Chart

  const Left := 8.0
  const Top := 5.0
  /** 100 minus the left and right padding. */
  const PlotWidth := 87.0
  /** 50 minus the top and bottom padding. */
  const PlotHeight := 35.0
  /** The bottom edge of the plot, 50 minus the bottom padding. */
  const Bottom := 40.0
  const Tension := 0.3

  /** The points.  With one value the code divides 0 by 0, so two or more
      values are required. */
  function Points(values: seq<real>): (pts: seq<Point>)
    requires |values| >= 2
    ensures |pts| == |values|
  {
    PaddedNormalise(values, Left, Top, PlotWidth, PlotHeight)
  }

  /** For positive values the curve's points run from x = 8 to x = 95 and stay
      strictly between the top and bottom edges of the plot. */
  lemma PositiveValuesInside(values: seq<real>)
    requires |values| >= 2 && forall i :: 0 <= i < |values| ==> values[i] > 0.0
    ensures Points(values)[0].x == 8.0 && Points(values)[|values| - 1].x == 95.0
    ensures forall i :: 0 <= i < |values| ==> 5.0 < Points(values)[i].y < 40.0
  {
    PaddedInside(values, Left, Top, PlotWidth, PlotHeight);
  }

  /** Equal positive values sit halfway down the plot, at y = 22.5; all-zero
      values sit on its bottom edge, at y = 40. */
  lemma FlatSeries(values: seq<real>, c: real)
    requires |values| >= 2 && forall i :: 0 <= i < |values| ==> values[i] == c
    ensures c > 0.0 ==> forall i :: 0 <= i < |values| ==> Points(values)[i].y == 22.5
    ensures c == 0.0 ==> forall i :: 0 <= i < |values| ==> Points(values)[i].y == 40.0
  {
    PaddedFlat(values, c, Left, Top, PlotWidth, PlotHeight);
  }

  /** The `i`-th curve segment, from point i to point i + 1, with the missing
      neighbours at the ends replaced by the end points themselves. */
  function Segment(pts: seq<Point>, i: nat): (c: Cmd)
    requires i + 1 < |pts|
    ensures c.CurveTo? && c.p == pts[i + 1]
  {
    var p0 := if i == 0 then pts[i] else pts[i - 1];
    var p1 := pts[i];
    var p2 := pts[i + 1];
    var p3 := if i + 2 < |pts| then pts[i + 2] else p2;
    CurveTo(Point(p1.x + (p2.x - p0.x) / 6.0 * Tension, p1.y + (p2.y - p0.y) / 6.0 * Tension),
            Point(p2.x - (p3.x - p1.x) / 6.0 * Tension, p2.y - (p3.y - p1.y) / 6.0 * Tension),
            p2)
  }

  /** The curve: one `M` at the first point, then one `C` per following point. */
  function Spline(pts: seq<Point>): (path: seq<Cmd>)
    requires |pts| >= 1
    ensures |path| == |pts| && path[0] == MoveTo(pts[0])
    ensures forall i :: 0 <= i < |pts| - 1 ==> path[i + 1] == Segment(pts, i)
  {
    [MoveTo(pts[0])] + seq(|pts| - 1, i requires 0 <= i < |pts| - 1 => Segment(pts, i))
  }

  /** Each segment ends at the next data point; the first uses its own start
      as the point before, the last its own end as the point after. */
  lemma SegmentsEndAtPoints(pts: seq<Point>)
    requires |pts| >= 2
    ensures forall i :: 1 <= i < |pts| ==> Spline(pts)[i].CurveTo? && Spline(pts)[i].p == pts[i]
    ensures Spline(pts)[1].c1 == Point(pts[0].x + (pts[1].x - pts[0].x) / 6.0 * Tension,
                                       pts[0].y + (pts[1].y - pts[0].y) / 6.0 * Tension)
    ensures var n := |pts|;
      Spline(pts)[n - 1].c2 == Point(pts[n - 1].x - (pts[n - 1].x - pts[n - 2].x) / 6.0 * Tension,
                                     pts[n - 1].y - (pts[n - 1].y - pts[n - 2].y) / 6.0 * Tension)
  {
    var path := Spline(pts);
    forall i | 1 <= i < |pts|
      ensures path[i].CurveTo? && path[i].p == pts[i]
    {
      assert path[i] == Segment(pts, i - 1);
    }
  }

  /** A level series gives a level curve: every control point has the same y. */
  lemma FlatCurve(pts: seq<Point>, y: real)
    requires |pts| >= 1 && forall i :: 0 <= i < |pts| ==> pts[i].y == y
    ensures forall i :: 1 <= i < |pts| ==> Spline(pts)[i].c1.y == y && Spline(pts)[i].c2.y == y
  {
    var path := Spline(pts);
    forall i | 1 <= i < |pts|
      ensures path[i].c1.y == y && path[i].c2.y == y
    {
      assert path[i] == Segment(pts, i - 1);
    }
  }

  /** The loop that builds `path`, one segment per step. */
  method BuildPath(pts: seq<Point>) returns (path: seq<Cmd>)
    requires |pts| >= 1
    ensures path == Spline(pts)
  {
    path := [MoveTo(pts[0])];
    var i := 0;
    while i < |pts| - 1
      invariant 0 <= i <= |pts| - 1
      invariant |path| == i + 1 && path[0] == MoveTo(pts[0])
      invariant forall j :: 0 <= j < i ==> path[j + 1] == Segment(pts, j)
    {
      path := path + [Segment(pts, i)];
      i := i + 1;
    }
    var spec := Spline(pts);
    assert forall k :: 1 <= k < |path| ==> path[k] == Segment(pts, k - 1) == spec[k];
  }

  /** The chart: its points, the curve, and the area path that closes the
      curve along the bottom edge. */
  method Draw(values: seq<real>) returns (pts: seq<Point>, path: seq<Cmd>, area: seq<Cmd>)
    requires |values| >= 2
    ensures pts == Points(values) && path == Spline(pts)
    ensures area == path + Baseline(pts[|pts| - 1], Left, Bottom)
  {
    pts := Points(values);
    path := BuildPath(pts);
    area := path + Baseline(pts[|pts| - 1], Left, Bottom);
  }
}
