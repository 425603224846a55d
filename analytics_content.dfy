/** The analytics page's computed parts: the compliance semicircle (each
    compliance band an arc whose angle is its share of 180 degrees), the
    revenue-by-sector bars, and the security-events trend line. */
module AnalyticsContent {
  import opened Chart
  import CompactNumber

  datatype ComplianceDistribution = ComplianceDistribution(
    fullyCompliant: real, minorIssues: real, needsAttention: real, critical: real)

  /** The four bands in drawing order. */
  function BandValues(d: ComplianceDistribution): (v: seq<real>)
    ensures |v| == 4
  {
    [d.fullyCompliant, d.minorIssues, d.needsAttention, d.critical]
  }

  /** The site total shown under the gauge: the four counts added. */
  function ComplianceTotal(d: ComplianceDistribution): (t: real)
    ensures t == Sum(BandValues(d))
  {
    SumOfFour(d.fullyCompliant, d.minorIssues, d.needsAttention, d.critical);
    d.fullyCompliant + d.minorIssues + d.needsAttention + d.critical
  }

  lemma SumOfFour(a: real, b: real, c: real, e: real)
    ensures Sum([a, b, c, e]) == a + b + c + e
  {
    var s := [a, b, c, e];
    assert [a][..0] == [] && [a, b][..1] == [a] && [a, b, c][..2] == [a, b] && s[..3] == [a, b, c];
    assert Sum([a]) == a;
    assert Sum([a, b]) == a + b;
    assert Sum([a, b, c]) == a + b + c;
  }

  /** `s.reduce((sum, s) => sum + (s.value / total) * 180, 0)` */
  function AngleSum(s: seq<real>, total: real): real
    requires total != 0.0
  {
    if s == [] then 0.0 else AngleSum(s[..|s| - 1], total) + (s[|s| - 1] / total) * 180.0
  }

  /** One band's arc: its angles in degrees from the left end of the
      semicircle, and the SVG large-arc flag. */
  datatype Arc = Arc(percentage: real, startAngle: real, endAngle: real, largeArc: bool)

  /** The k-th band's arc: it starts after the angles of the bands before it. */
  function ArcAt(v: seq<real>, total: real, k: nat): (a: Arc)
    requires k < |v| && total != 0.0
    ensures a.percentage * total == v[k]
    ensures a.endAngle - a.startAngle == a.percentage * 180.0
    ensures a.largeArc <==> a.percentage > 0.5
  {
    var percentage := v[k] / total;
    var startAngle := AngleSum(v[..k], total);
    Arc(percentage, startAngle, startAngle + percentage * 180.0, percentage > 0.5)
  }

  /** The four arcs.  A zero total divides by zero, so it is excluded. */
  function ComplianceArcs(d: ComplianceDistribution): (arcs: seq<Arc>)
    requires ComplianceTotal(d) != 0.0
    ensures |arcs| == 4
    ensures forall k :: 0 <= k < 4 ==> arcs[k] == ArcAt(BandValues(d), ComplianceTotal(d), k)
  {
    seq(4, k requires 0 <= k < 4 => ArcAt(BandValues(d), ComplianceTotal(d), k))
  }

  /** The angle sum is the share of the values in 180 degrees. */
  lemma {:induction false} AngleSumIsShare(s: seq<real>, total: real)
    requires total != 0.0
    ensures AngleSum(s, total) == Sum(s) / total * 180.0
  {
    if s != [] {
      var init, last := s[..|s| - 1], s[|s| - 1];
      AngleSumIsShare(init, total);
      ShareSum(Sum(init), last, total);
    }
  }

  lemma ShareSum(a: real, b: real, t: real)
    requires t != 0.0
    ensures a / t * 180.0 + b / t * 180.0 == (a + b) / t * 180.0
  {
    assert a / t + b / t == (a + b) / t;
  }

  /** The arcs tile the semicircle: the first starts at 0 degrees, each starts
      where the previous one ends, and the last ends at 180 degrees. */
  lemma ArcsContiguous(d: ComplianceDistribution)
    requires ComplianceTotal(d) != 0.0
    ensures ComplianceArcs(d)[0].startAngle == 0.0
    ensures forall k :: 1 <= k < 4 ==> ComplianceArcs(d)[k].startAngle == ComplianceArcs(d)[k - 1].endAngle
    ensures ComplianceArcs(d)[3].endAngle == 180.0
  {
    var v, t := BandValues(d), ComplianceTotal(d);
    var arcs := ComplianceArcs(d);
    assert v[..0] == [];
    forall k | 1 <= k < 4
      ensures arcs[k].startAngle == arcs[k - 1].endAngle
    {
      assert v[..k][..k - 1] == v[..k - 1];
    }
    assert v[..4] == v;
    AngleSumIsShare(v, t);
    calc {
      arcs[3].endAngle;
      AngleSum(v[..3], t) + v[3] / t * 180.0;
      { assert v[..4][..3] == v[..3]; }
      AngleSum(v[..4], t);
      Sum(v) / t * 180.0;
    }
    assert Sum(v) == t;
    assert t / t == 1.0;
  }

  /** The flag is set exactly for a band holding more than half the sites;
      with non-negative counts at most one band can hold that many. */
  lemma LargeArcIff(d: ComplianceDistribution)
    requires ComplianceTotal(d) > 0.0
    ensures forall k :: 0 <= k < 4 ==> (ComplianceArcs(d)[k].largeArc <==> BandValues(d)[k] > ComplianceTotal(d) / 2.0)
    ensures d.fullyCompliant >= 0.0 && d.minorIssues >= 0.0 && d.needsAttention >= 0.0 && d.critical >= 0.0 ==>
      forall j, k :: 0 <= j < k < 4 ==> !(ComplianceArcs(d)[j].largeArc && ComplianceArcs(d)[k].largeArc)
  {
    var v, t := BandValues(d), ComplianceTotal(d);
    forall k | 0 <= k < 4
      ensures ComplianceArcs(d)[k].largeArc <==> v[k] > t / 2.0
    {
      var p := v[k] / t;
      assert p * t == v[k];
      HalfShare(v[k], t);
    }
  }

  lemma HalfShare(x: real, t: real)
    requires t > 0.0
    ensures x / t > 0.5 <==> x > t / 2.0
  {
    assert x / t * t == x;
    if x / t > 0.5 {
      assert x / t * t > 0.5 * t;
    }
    if x > t / 2.0 {
      assert x / t > (t / 2.0) / t;
    }
  }

  datatype SectorData = SectorData(name: string, revenue: real, percentage: real)

  function Revenues(data: seq<SectorData>): (r: seq<real>)
    ensures |r| == |data| && forall k :: 0 <= k < |data| ==> r[k] == data[k].revenue
  {
    seq(|data|, k requires 0 <= k < |data| => data[k].revenue)
  }

  /** `(item.revenue / maxValue) * 100`, the bar's width in percent, with
      `maxValue = Math.max(...revenues)`.  No sectors or a zero maximum
      divides by zero, so both are excluded. */
  function BarWidth(data: seq<SectorData>, k: nat): real
    requires k < |data| && Max(Revenues(data)) != 0.0
  {
    (data[k].revenue / Max(Revenues(data))) * 100.0
  }

  /** The largest sector fills its bar; with positive revenues every bar is
      wider than 0% and at most 100%. */
  lemma BarWidths(data: seq<SectorData>)
    requires |data| >= 1 && Max(Revenues(data)) != 0.0
    ensures exists k :: 0 <= k < |data| && BarWidth(data, k) == 100.0
    ensures (forall k :: 0 <= k < |data| ==> data[k].revenue > 0.0) ==>
      forall k :: 0 <= k < |data| ==> 0.0 < BarWidth(data, k) <= 100.0
  {
    var r := Revenues(data);
    var m := Max(r);
    var top :| 0 <= top < |r| && r[top] == m;
    assert m / m == 1.0;
    assert BarWidth(data, top) == (m / m) * 100.0;
    if forall k :: 0 <= k < |data| ==> data[k].revenue > 0.0 {
      forall k | 0 <= k < |data|
        ensures 0.0 < BarWidth(data, k) <= 100.0
      {
        FractionAtMostOne(r[k], m);
      }
    }
  }

  lemma FractionAtMostOne(a: real, b: real)
    requires 0.0 < a <= b
    ensures 0.0 < a / b * 100.0 <= 100.0
  {
    if a < b {
      FractionBelowOne(a, b);
    }
  }

  /** formatValue, in rand. */
  function FormatValue(value: real): (c: CompactNumber.Compact)
    ensures c.symbol == "R"
    ensures c.unit == CompactNumber.Millions <==> value >= 1000000.0
    ensures c.unit == CompactNumber.Thousands <==> 1000.0 <= value < 1000000.0
    ensures c.unit == CompactNumber.Units <==> value < 1000.0
    ensures c.amount * CompactNumber.Scale(c.unit) == value
  {
    CompactNumber.Format(value, "R")
  }

  /** The events trend's 280 x 140 box less its padding: left 16, top 10,
      252 wide, 112 high, bottom edge at 122. */
  const EventsLeft := 16.0
  const EventsTop := 10.0
  const EventsWidth := 252.0
  const EventsHeight := 112.0
  const EventsBottom := 122.0

  /** The events trend's points; one month divides 0 by 0, so two or more
      are required. */
  function EventPoints(values: seq<real>): (pts: seq<Point>)
    requires |values| >= 2
    ensures |pts| == |values|
  {
    PaddedNormalise(values, EventsLeft, EventsTop, EventsWidth, EventsHeight)
  }

  /** For positive counts x runs from 16 to 268 and every point stays strictly
      inside the plot box vertically. */
  lemma EventPointsInside(values: seq<real>)
    requires |values| >= 2 && forall i :: 0 <= i < |values| ==> values[i] > 0.0
    ensures EventPoints(values)[0].x == 16.0 && EventPoints(values)[|values| - 1].x == 268.0
    ensures forall i :: 0 <= i < |values| ==> 10.0 < EventPoints(values)[i].y < 122.0
  {
    PaddedInside(values, EventsLeft, EventsTop, EventsWidth, EventsHeight);
  }

  /** The loop that builds `path`: `M` at the first point, then `L` to each
      next point. */
  method BuildLinePath(pts: seq<Point>) returns (path: seq<Cmd>)
    requires |pts| >= 1
    ensures path == Polyline(pts)
  {
    path := [MoveTo(pts[0])];
    var i := 1;
    while i < |pts|
      invariant 1 <= i <= |pts| && |path| == i && path[0] == MoveTo(pts[0])
      invariant forall j :: 1 <= j < i ==> path[j] == LineTo(pts[j])
    {
      path := path + [LineTo(pts[i])];
      i := i + 1;
    }
    var spec := Polyline(pts);
    assert forall k :: 0 <= k < |path| ==> path[k] == spec[k];
  }

  /** The events trend: its points, the line and the area closed along the
      bottom edge. */
  method DrawEventsTrend(values: seq<real>) returns (pts: seq<Point>, path: seq<Cmd>, area: seq<Cmd>)
    requires |values| >= 2
    ensures pts == EventPoints(values) && path == Polyline(pts)
    ensures area == path + Baseline(pts[|pts| - 1], EventsLeft, EventsBottom)
  {
    pts := EventPoints(values);
    path := BuildLinePath(pts);
    area := path + Baseline(pts[|pts| - 1], EventsLeft, EventsBottom);
  }
}
