/** Shared chart geometry: points, SVG path commands, the extremes and sum of
    a series, and the affine map of a series into a plot box (index to x,
    value to y with larger values higher up).  Numbers are exact reals;
    rendering a path to text is not part of this model. */
module Chart {

  datatype Point = Point(x: real, y: real)

  /** `M x y`, `L x y`, `C x1 y1, x2 y2, x y` and `Z`. */
  datatype Cmd = MoveTo(p: Point) | LineTo(p: Point) | CurveTo(c1: Point, c2: Point, p: Point) | Close

  /** `Math.min(...s)` */
  function Min(s: seq<real>): (m: real)
    requires |s| >= 1
    ensures m in s && forall k :: 0 <= k < |s| ==> m <= s[k]
  {
    if |s| == 1 then s[0]
    else
      var rest := Min(s[1..]);
      assert forall k :: 1 <= k < |s| ==> s[k] == s[1..][k - 1];
      if s[0] <= rest then s[0] else rest
  }

  /** `Math.max(...s)` */
  function Max(s: seq<real>): (m: real)
    requires |s| >= 1
    ensures m in s && forall k :: 0 <= k < |s| ==> s[k] <= m
  {
    if |s| == 1 then s[0]
    else
      var rest := Max(s[1..]);
      assert forall k :: 1 <= k < |s| ==> s[k] == s[1..][k - 1];
      if s[0] >= rest then s[0] else rest
  }

  /** `s.reduce((sum, v) => sum + v, 0)` */
  function Sum(s: seq<real>): real
  {
    if s == [] then 0.0 else Sum(s[..|s| - 1]) + s[|s| - 1]
  }

  /** `hi - lo || 1`: a zero span falls back to 1. */
  function SpanOr1(lo: real, hi: real): (r: real)
    ensures r != 0.0
    ensures lo < hi ==> r == hi - lo
  {
    if hi - lo == 0.0 then 1.0 else hi - lo
  }

  /** `left + (i / (n - 1)) * width` */
  function XOf(i: nat, n: nat, left: real, width: real): real
    requires n >= 2
  {
    left + (i as real / (n - 1) as real) * width
  }

  /** `top + height - ((v - lo) / range) * height` */
  function YOf(v: real, lo: real, range: real, top: real, height: real): real
    requires range != 0.0
  {
    top + height - ((v - lo) / range) * height
  }

  /** The series mapped into the box with corner (left, top), size
      width x height, values from `lo` over `range`. */
  function Normalise(values: seq<real>, lo: real, range: real, left: real, top: real, width: real, height: real): (pts: seq<Point>)
    requires |values| >= 2 && range != 0.0
    ensures |pts| == |values|
    ensures forall i :: 0 <= i < |pts| ==>
      pts[i] == Point(XOf(i, |values|, left, width), YOf(values[i], lo, range, top, height))
  {
    seq(|values|, i requires 0 <= i < |values| =>
      Point(XOf(i, |values|, left, width), YOf(values[i], lo, range, top, height)))
  }

  /** The first point is at the left edge, the last at the right edge, and
      the points are evenly spaced. */
  lemma XSpan(n: nat, left: real, width: real)
    requires n >= 2
    ensures XOf(0, n, left, width) == left
    ensures XOf(n - 1, n, left, width) == left + width
    ensures forall i: nat :: i + 1 < n ==> XOf(i + 1, n, left, width) - XOf(i, n, left, width) == width / (n - 1) as real
  {
    var d := (n - 1) as real;
    assert (n - 1) as real / d == 1.0;
    forall i: nat | i + 1 < n
      ensures XOf(i + 1, n, left, width) - XOf(i, n, left, width) == width / (n - 1) as real
    {
      StepWidth(i as real, (n - 1) as real, width);
    }
  }

  lemma StepWidth(a: real, d: real, w: real)
    requires d > 0.0
    ensures (a + 1.0) / d * w - a / d * w == w / d
  {
    assert (a + 1.0) / d == a / d + 1.0 / d;
    assert (a / d + 1.0 / d) * w == a / d * w + 1.0 / d * w;
    assert 1.0 / d * w == w / d;
  }

  lemma ScaledWithin(t: real, h: real)
    requires 0.0 <= t <= 1.0 && h >= 0.0
    ensures 0.0 <= t * h <= h
  {
    assert t * h <= 1.0 * h;
  }

  lemma ScaledStrictlyWithin(t: real, h: real)
    requires 0.0 < t < 1.0 && h > 0.0
    ensures 0.0 < t * h < h
  {
    assert t * h < 1.0 * h;
  }

  /** A value inside [lo, lo + range] lands inside the box vertically: the
      low end at the bottom edge, the high end at the top edge. */
  lemma YWithin(v: real, lo: real, range: real, top: real, height: real)
    requires range > 0.0
    ensures height >= 0.0 && lo <= v <= lo + range ==> top <= YOf(v, lo, range, top, height) <= top + height
    ensures v == lo ==> YOf(v, lo, range, top, height) == top + height
    ensures v == lo + range ==> YOf(v, lo, range, top, height) == top
  {
    var t := (v - lo) / range;
    if height >= 0.0 && lo <= v <= lo + range {
      assert 0.0 <= t <= 1.0;
      ScaledWithin(t, height);
    }
    if v == lo + range {
      assert t == 1.0;
    }
  }

  /** A value strictly inside the range lands strictly inside the box. */
  lemma YStrictlyWithin(v: real, lo: real, range: real, top: real, height: real)
    requires range > 0.0 && height > 0.0 && lo < v < lo + range
    ensures top < YOf(v, lo, range, top, height) < top + height
  {
    var t := (v - lo) / range;
    FractionBelowOne(v - lo, range);
    ScaledStrictlyWithin(t, height);
  }

  lemma FractionBelowOne(a: real, b: real)
    requires 0.0 < a < b
    ensures 0.0 < a / b < 1.0
  {
    assert a / b * b == a;
    if a / b >= 1.0 {
      assert false;
    }
  }

  /** `Math.min(...values) * 0.9`: the padded lower end of the range. */
  function PaddedLow(values: seq<real>): real requires |values| >= 1 { 0.9 * Min(values) }

  /** `Math.max(...values) * 1.1`: the padded upper end of the range. */
  function PaddedHigh(values: seq<real>): real requires |values| >= 1 { 1.1 * Max(values) }

  /** The series mapped into the box over the padded range `max - min || 1`. */
  function PaddedNormalise(values: seq<real>, left: real, top: real, width: real, height: real): (pts: seq<Point>)
    requires |values| >= 2
  {
    Normalise(values, PaddedLow(values), SpanOr1(PaddedLow(values), PaddedHigh(values)), left, top, width, height)
  }

  /** For positive values the padded range strictly contains every value. */
  lemma PaddedRange(values: seq<real>)
    requires |values| >= 1 && forall i :: 0 <= i < |values| ==> values[i] > 0.0
    ensures forall i :: 0 <= i < |values| ==> PaddedLow(values) < values[i] < PaddedHigh(values)
  {
    var m, mx := Min(values), Max(values);
    assert m > 0.0 && mx > 0.0;
    assert 0.9 * m < m && mx < 1.1 * mx;
  }

  /** Positive values run from the left edge to the right edge and stay
      strictly inside the box vertically. */
  lemma PaddedInside(values: seq<real>, left: real, top: real, width: real, height: real)
    requires |values| >= 2 && forall i :: 0 <= i < |values| ==> values[i] > 0.0
    requires height > 0.0
    ensures PaddedNormalise(values, left, top, width, height)[0].x == left
    ensures PaddedNormalise(values, left, top, width, height)[|values| - 1].x == left + width
    ensures forall i :: 0 <= i < |values| ==>
      top < PaddedNormalise(values, left, top, width, height)[i].y < top + height
  {
    XSpan(|values|, left, width);
    PaddedRange(values);
    var lo, hi := PaddedLow(values), PaddedHigh(values);
    assert lo < values[0] < hi;
    var range := SpanOr1(lo, hi);
    assert range == hi - lo;
    var pts := PaddedNormalise(values, left, top, width, height);
    forall i | 0 <= i < |values|
      ensures top < pts[i].y < top + height
    {
      assert pts[i].y == YOf(values[i], lo, range, top, height);
      YStrictlyWithin(values[i], lo, range, top, height);
    }
  }

  /** A level positive series sits halfway down the box; an all-zero series,
      whose padded range is empty and falls back to 1, sits on the bottom. */
  lemma PaddedFlat(values: seq<real>, c: real, left: real, top: real, width: real, height: real)
    requires |values| >= 2 && forall i :: 0 <= i < |values| ==> values[i] == c
    ensures c > 0.0 ==> forall i :: 0 <= i < |values| ==>
      PaddedNormalise(values, left, top, width, height)[i].y == top + height / 2.0
    ensures c == 0.0 ==> forall i :: 0 <= i < |values| ==>
      PaddedNormalise(values, left, top, width, height)[i].y == top + height
  {
    var m := Min(values);
    var k :| 0 <= k < |values| && values[k] == m;
    var mx := Max(values);
    var j :| 0 <= j < |values| && values[j] == mx;
    assert m == c && mx == c;
    if c > 0.0 {
      assert (c - 0.9 * c) / (1.1 * c - 0.9 * c) == 0.5;
    }
  }

  /** A polyline through the points: one `M` and then an `L` per point. */
  function Polyline(pts: seq<Point>): (path: seq<Cmd>)
    requires |pts| >= 1
    ensures |path| == |pts|
    ensures path[0] == MoveTo(pts[0])
    ensures forall i :: 1 <= i < |pts| ==> path[i] == LineTo(pts[i])
  {
    seq(|pts|, i requires 0 <= i < |pts| => if i == 0 then MoveTo(pts[0]) else LineTo(pts[i]))
  }

  /** The tail of an area path: down to the baseline under the last point,
      back along it to the left edge, and close. */
  function Baseline(last: Point, left: real, bottom: real): (tail: seq<Cmd>)
    ensures |tail| == 3 && tail[2] == Close
    ensures tail[0] == LineTo(Point(last.x, bottom)) && tail[1] == LineTo(Point(left, bottom))
  {
    [LineTo(Point(last.x, bottom)), LineTo(Point(left, bottom)), Close]
  }
}
