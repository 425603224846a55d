/** A KPI card: the status dot, the derived status of a gauge value, the
    trend pill's colour, and which visual the card shows. */
module KpiCard {
  import opened Optional

  datatype Status = Healthy | Warning | Critical

  /** `getStatusColor`; an absent status is grey. */
  function StatusColor(status: Option<Status>): (c: string)
    ensures status.None? <==> c == "bg-gray-300"
  {
    match status
    case None => "bg-gray-300"
    case Some(Healthy) => "bg-portfolio-growth"
    case Some(Warning) => "bg-portfolio-stable"
    case Some(Critical) => "bg-portfolio-risk"
  }

  /** A card value: a number, or a string with what `parseFloat` reads from
      it (None for NaN, which fails every comparison). */
  datatype Value = Num(n: real) | Str(text: string, parsed: Option<real>)

  datatype CardType = Default | Gauge | SparklineType

  function Numeric(v: Value): Option<real>
  {
    match v
    case Num(n) => Some(n)
    case Str(_, p) => p
  }

  /** `getStatusFromValue`: only gauges are graded, at 80 and 60. */
  function StatusFromValue(v: Value, t: CardType): (s: Status)
    ensures t != Gauge ==> s == Healthy
    ensures t == Gauge ==> (s == Healthy <==> Numeric(v).Some? && Numeric(v).value >= 80.0)
    ensures t == Gauge ==> (s == Warning <==> Numeric(v).Some? && 60.0 <= Numeric(v).value < 80.0)
    ensures t == Gauge && Numeric(v).None? ==> s == Critical
  {
    if t == Gauge then
      var num := Numeric(v);
      if num.Some? && num.value >= 80.0 then Healthy
      else if num.Some? && num.value >= 60.0 then Warning
      else Critical
    else Healthy
  }

  /** `status || getStatusFromValue(value, type)`: a given status wins. */
  function ComputedStatus(status: Option<Status>, v: Value, t: CardType): (s: Status)
    ensures status.Some? ==> s == status.value
    ensures status.None? ==> s == StatusFromValue(v, t)
  {
    if status.Some? then status.value else StatusFromValue(v, t)
  }

  datatype Trend = Up | Down | Neutral

  datatype Tone = Positive | Negative | Muted

  /** `getTrendColor`'s choice: with `invertTrend` a fall is good news. */
  function TrendTone(trend: Option<Trend>, invert: bool): (t: Tone)
    ensures t == Positive <==> trend == Some(if invert then Down else Up)
    ensures t == Negative <==> trend == Some(if invert then Up else Down)
    ensures trend.None? || trend == Some(Neutral) ==> t == Muted
  {
    var isPositive := if invert then trend == Some(Down) else trend == Some(Up);
    var isNegative := if invert then trend == Some(Up) else trend == Some(Down);
    if isPositive then Positive else if isNegative then Negative else Muted
  }

  function Flip(t: Trend): Trend
  {
    match t
    case Up => Down
    case Down => Up
    case Neutral => Neutral
  }

  /** Inverting the trend reads an up movement as a down one. */
  lemma InvertSwaps(t: Trend)
    ensures TrendTone(Some(t), true) == TrendTone(Some(Flip(t)), false)
  {
  }

  datatype Visual = GaugeVisual(value: real) | ValueText(trendPill: bool, sparkline: Option<string>)

  /** The card body: the gauge only for a gauge card with a numeric value;
      otherwise the value, the trend pill when both a trend and a non-empty
      trend text are given, and the sparkline (red iff the status is
      critical) for a sparkline card with data. */
  function Body(v: Value, t: CardType, trend: Option<Trend>, trendValue: Option<string>,
                hasSparklineData: bool, status: Option<Status>): (b: Visual)
    ensures b.GaugeVisual? <==> t == Gauge && v.Num?
    ensures b.ValueText? ==> (b.trendPill <==> trend.Some? && trendValue.Some? && trendValue.value != "")
    ensures b.ValueText? ==> (b.sparkline.Some? <==> t == SparklineType && hasSparklineData)
    ensures b.ValueText? && b.sparkline.Some? ==>
      (b.sparkline.value == "#DC2626" <==> ComputedStatus(status, v, t) == Critical)
  {
    if t == Gauge && v.Num? then GaugeVisual(v.n)
    else
      var color := if ComputedStatus(status, v, t) == Critical then "#DC2626" else "#16b364";
      ValueText(trend.Some? && trendValue.Some? && trendValue.value != "",
                if t == SparklineType && hasSparklineData then Some(color) else None)
  }
}
