/** The half-circle health gauge: its colour band and the dash offset of
    the value arc.  pi is a positive parameter; the arc's length is
    radius times pi. */
module HealthGauge {

  datatype GaugeColor = Green | Amber | Orange | Red

  /** `getGaugeColor`: green from 80, amber from 60, orange from 40, else red. */
  function ColorFor(percentage: real): (c: GaugeColor)
    ensures c == Green <==> percentage >= 80.0
    ensures c == Amber <==> 60.0 <= percentage < 80.0
    ensures c == Orange <==> 40.0 <= percentage < 60.0
    ensures c == Red <==> percentage < 40.0
  {
    if percentage >= 80.0 then Green
    else if percentage >= 60.0 then Amber
    else if percentage >= 40.0 then Orange
    else Red
  }

  function Severity(c: GaugeColor): nat
  {
    match c
    case Green => 0
    case Amber => 1
    case Orange => 2
    case Red => 3
  }

  /** A higher percentage never shows a more severe colour. */
  lemma ColorMonotone(p: real, q: real)
    requires p <= q
    ensures Severity(ColorFor(q)) <= Severity(ColorFor(p))
  {
  }

  datatype Gauge = Gauge(percentage: real, radius: real, circumference: real, offset: real, color: GaugeColor)

  /** `circumference - (percentage / 100) * circumference`, as the share of
      the maximum left undrawn. */
  function Offset(value: real, max: real, circumference: real): (off: real)
    requires max != 0.0
    ensures off == circumference * (1.0 - value / max)
  {
    var percentage := value / max * 100.0;
    assert percentage / 100.0 == value / max;
    circumference - percentage / 100.0 * circumference
  }

  function GaugeOf(value: real, max: real, size: real, strokeWidth: real, pi: real): (g: Gauge)
    requires max != 0.0
    ensures g.percentage == value / max * 100.0
    ensures g.radius == (size - strokeWidth) / 2.0 && g.circumference == g.radius * pi
    ensures g.offset == Offset(value, max, g.circumference)
    ensures g.color == ColorFor(g.percentage)
  {
    var percentage := value / max * 100.0;
    var radius := (size - strokeWidth) / 2.0;
    var circumference := radius * pi;
    Gauge(percentage, radius, circumference, Offset(value, max, circumference), ColorFor(percentage))
  }

  /** No clamping: an empty gauge is the whole arc back, a full one is 0, and
      the offset leaves [0, C] exactly when the value leaves [0, max]. */
  lemma OffsetRange(value: real, max: real, c: real)
    requires max > 0.0 && c > 0.0
    ensures value == 0.0 ==> Offset(value, max, c) == c
    ensures value == max ==> Offset(value, max, c) == 0.0
    ensures 0.0 <= value <= max ==> 0.0 <= Offset(value, max, c) <= c
    ensures value > max ==> Offset(value, max, c) < 0.0
    ensures value < 0.0 ==> Offset(value, max, c) > c
  {
    ShareOfArc(value / max, c);
    if value > max {
      assert value / max > 1.0;
    }
    if value < 0.0 {
      assert value / max < 0.0;
    }
    if 0.0 <= value <= max {
      assert 0.0 <= value / max <= 1.0;
    }
    if value == max {
      assert value / max == 1.0;
    }
  }

  lemma ShareOfArc(t: real, c: real)
    requires c > 0.0
    ensures 0.0 <= t <= 1.0 ==> 0.0 <= c * (1.0 - t) <= c
    ensures t > 1.0 ==> c * (1.0 - t) < 0.0
    ensures t < 0.0 ==> c * (1.0 - t) > c
  {
    if 0.0 <= t <= 1.0 {
      assert c * (1.0 - t) <= c * 1.0;
    }
  }
}
