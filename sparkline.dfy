/** The sparkline: a series drawn across a small box with a 2-unit margin,
    scaled between its own minimum and maximum, as a line and a closed
    area under it. */
module Sparkline {
  import opened Optional
  import opened Chart

  const Padding := 2.0

  /** `max - min || 1` over the series. */
  function Span(data: seq<real>): (r: real)
    requires |data| >= 1
    ensures r > 0.0
    ensures Min(data) < Max(data) ==> r == Max(data) - Min(data)
    ensures Min(data) == Max(data) ==> r == 1.0
  {
    SpanOr1(Min(data), Max(data))
  }

  /** The points of a series of at least two values. */
  function Points(data: seq<real>, width: real, height: real): (pts: seq<Point>)
    requires |data| >= 2
    ensures |pts| == |data|
  {
    Normalise(data, Min(data), Span(data), Padding, Padding, width - 2.0 * Padding, height - 2.0 * Padding)
  }

  /** The line and area paths, or nothing for fewer than two values (the
      component then renders nothing). */
  function Paths(data: seq<real>, width: real, height: real): (r: Option<(seq<Cmd>, seq<Cmd>)>)
    ensures r.None? <==> |data| < 2
    ensures r.Some? ==> var pts := Points(data, width, height);
      r.value.0 == Polyline(pts) &&
      r.value.1 == Polyline(pts) + Baseline(pts[|pts| - 1], Padding, height - Padding)
  {
    if |data| < 2 then None
    else
      var pts := Points(data, width, height);
      var line := Polyline(pts);
      Some((line, line + Baseline(pts[|pts| - 1], Padding, height - Padding)))
  }

  /** x runs from the left margin to the right margin in equal steps. */
  lemma SpansWidth(data: seq<real>, width: real, height: real)
    requires |data| >= 2
    ensures var pts := Points(data, width, height);
      pts[0].x == Padding && pts[|pts| - 1].x == width - Padding &&
      forall i :: 0 <= i < |pts| - 1 ==> pts[i + 1].x - pts[i].x == (width - 2.0 * Padding) / (|data| - 1) as real
  {
    XSpan(|data|, Padding, width - 2.0 * Padding);
    var pts := Points(data, width, height);
    forall i | 0 <= i < |pts| - 1
      ensures pts[i + 1].x - pts[i].x == (width - 2.0 * Padding) / (|data| - 1) as real
    {
      assert pts[i + 1].x == XOf(i + 1, |data|, Padding, width - 2.0 * Padding);
    }
  }

  /** Every y lies within the margins; the minimum is drawn on the bottom
      margin and, when the series is not flat, the maximum on the top one. */
  lemma StaysInBox(data: seq<real>, width: real, height: real)
    requires |data| >= 2 && height >= 2.0 * Padding
    ensures var pts := Points(data, width, height);
      forall i :: 0 <= i < |pts| ==> Padding <= pts[i].y <= height - Padding
    ensures var pts := Points(data, width, height);
      Min(data) < Max(data) ==> forall i :: 0 <= i < |pts| && data[i] == Max(data) ==> pts[i].y == Padding
  {
    var pts := Points(data, width, height);
    var lo, range, h := Min(data), Span(data), height - 2.0 * Padding;
    forall i | 0 <= i < |pts|
      ensures Padding <= pts[i].y <= height - Padding
      ensures lo < Max(data) && data[i] == Max(data) ==> pts[i].y == Padding
    {
      YWithin(data[i], lo, range, Padding, h);
    }
  }

  /** A flat series is a line along the bottom margin, not through the
      middle. */
  lemma FlatSitsOnBottom(data: seq<real>, width: real, height: real)
    requires |data| >= 2 && forall i :: 0 <= i < |data| ==> data[i] == data[0]
    ensures var pts := Points(data, width, height);
      forall i :: 0 <= i < |pts| ==> pts[i].y == height - Padding
  {
    var m := Min(data);
    var k :| 0 <= k < |data| && data[k] == m;
    MinOnBottom(data, width, height);
  }

  /** The minimum is drawn on the bottom margin. */
  lemma MinOnBottom(data: seq<real>, width: real, height: real)
    requires |data| >= 2
    ensures var pts := Points(data, width, height);
      forall i :: 0 <= i < |pts| && data[i] == Min(data) ==> pts[i].y == height - Padding
  {
    var pts := Points(data, width, height);
    forall i | 0 <= i < |pts| && data[i] == Min(data)
      ensures pts[i].y == height - Padding
    {
      YWithin(data[i], Min(data), Span(data), Padding, height - 2.0 * Padding);
    }
  }
}
