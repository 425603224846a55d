/** The ARR-by-tier donut: one dashed circle per tier, each dash as long as
    the tier's share of the circumference, each starting where the previous
    one ended, the first at the top of the circle. */
module ArrDonut {
  import Chart
  import CompactNumber

  datatype TierData = TierData(name: string, value: real, color: string)

  /** A drawn segment: the tier with its share, its dash array
      (`dash gap`) and its dash offset. */
  datatype Segment = Segment(tier: TierData, percentage: real, dash: real, gap: real, offset: real)

  function Values(data: seq<TierData>): (v: seq<real>)
    ensures |v| == |data| && forall k :: 0 <= k < |data| ==> v[k] == data[k].value
  {
    seq(|data|, k requires 0 <= k < |data| => data[k].value)
  }

  /** `data.reduce((sum, d) => sum + d.value, 0)` */
  function Total(data: seq<TierData>): real
  {
    Chart.Sum(Values(data))
  }

  function Share(data: seq<TierData>, k: nat): real
    requires k < |data| && Total(data) != 0.0
  {
    data[k].value / Total(data)
  }

  /** The shares of the tiers before the k-th. */
  function SharesBefore(data: seq<TierData>, k: nat): real
    requires k <= |data| && Total(data) != 0.0
  {
    if k == 0 then 0.0 else SharesBefore(data, k - 1) + Share(data, k - 1)
  }

  /** The dash lengths of the tiers before the k-th: how far `currentOffset`
      has moved back from its start when the k-th tier is drawn. */
  function LengthBefore(data: seq<TierData>, c: real, k: nat): real
    requires k <= |data| && Total(data) != 0.0
  {
    if k == 0 then 0.0 else LengthBefore(data, c, k - 1) + Share(data, k - 1) * c
  }

  /** The k-th segment for circumference `c`. */
  function SegmentAt(data: seq<TierData>, c: real, k: nat): (s: Segment)
    requires k < |data| && Total(data) != 0.0
    ensures s.tier == data[k] && s.percentage * Total(data) == data[k].value
    ensures s.dash == s.percentage * c && s.dash + s.gap == c
  {
    var pct := Share(data, k);
    Segment(data[k], pct, pct * c, c - pct * c, c * 0.25 - LengthBefore(data, c, k))
  }

  /** The segments, one per tier in tier order. */
  function Segments(data: seq<TierData>, c: real): (segs: seq<Segment>)
    requires Total(data) != 0.0
    ensures |segs| == |data| && forall k :: 0 <= k < |data| ==> segs[k] == SegmentAt(data, c, k)
  {
    seq(|data|, k requires 0 <= k < |data| => SegmentAt(data, c, k))
  }

  /** The `map` over the tiers with the shared running `currentOffset`.  A
      zero total divides by zero, so it is excluded. */
  method BuildSegments(data: seq<TierData>, c: real) returns (segs: seq<Segment>)
    requires Total(data) != 0.0
    ensures segs == Segments(data, c)
  {
    var total := Chart.Sum(Values(data));
    var currentOffset := c * 0.25;
    segs := [];
    var i := 0;
    while i < |data|
      invariant 0 <= i <= |data| && |segs| == i
      invariant forall k :: 0 <= k < i ==> segs[k] == SegmentAt(data, c, k)
      invariant currentOffset == c * 0.25 - LengthBefore(data, c, i)
    {
      var percentage := data[i].value / total;
      var strokeLength := percentage * c;
      assert percentage == Share(data, i);
      assert Segment(data[i], percentage, strokeLength, c - strokeLength, currentOffset) == SegmentAt(data, c, i);
      assert LengthBefore(data, c, i + 1) == LengthBefore(data, c, i) + strokeLength;
      segs := segs + [Segment(data[i], percentage, strokeLength, c - strokeLength, currentOffset)];
      currentOffset := currentOffset - strokeLength;
      i := i + 1;
    }
  }

  /** The first dash starts a quarter of the way round (at the top); each
      later dash starts where the previous one ends. */
  lemma OffsetsChain(data: seq<TierData>, c: real)
    requires Total(data) != 0.0
    ensures |data| > 0 ==> Segments(data, c)[0].offset == c / 4.0
    ensures forall k :: 0 < k < |data| ==>
      Segments(data, c)[k].offset == Segments(data, c)[k - 1].offset - Segments(data, c)[k - 1].dash
  {
  }

  lemma Distribute(a: real, b: real, c: real)
    ensures a * c + b * c == (a + b) * c
  {
  }

  lemma DivideSum(a: real, b: real, t: real)
    requires t != 0.0
    ensures a / t + b / t == (a + b) / t
  {
  }

  /** The shares before the k-th tier are the values before it over the total;
      the lengths before it are those shares of the circumference. */
  lemma {:induction false} PrefixShares(data: seq<TierData>, c: real, k: nat)
    requires k <= |data| && Total(data) != 0.0
    ensures SharesBefore(data, k) == Chart.Sum(Values(data)[..k]) / Total(data)
    ensures LengthBefore(data, c, k) == SharesBefore(data, k) * c
  {
    if k > 0 {
      PrefixShares(data, c, k - 1);
      var v := Values(data);
      assert v[..k][..k - 1] == v[..k - 1];
      DivideSum(Chart.Sum(v[..k - 1]), v[k - 1], Total(data));
      Distribute(SharesBefore(data, k - 1), Share(data, k - 1), c);
    }
  }

  /** With a non-zero total the shares add up to one and the dashes to the
      whole circumference, so the last dash ends three quarters of the
      circumference before the start, back at the top. */
  lemma CoversCircle(data: seq<TierData>, c: real)
    requires Total(data) != 0.0
    ensures SharesBefore(data, |data|) == 1.0
    ensures LengthBefore(data, c, |data|) == c
    ensures |data| > 0 ==>
      Segments(data, c)[|data| - 1].offset - Segments(data, c)[|data| - 1].dash == c * 0.25 - c
  {
    SharesSumToOne(data, c);
    if |data| > 0 {
      LastDashCloses(data, c);
    }
  }

  lemma SharesSumToOne(data: seq<TierData>, c: real)
    requires Total(data) != 0.0
    ensures SharesBefore(data, |data|) == 1.0
    ensures LengthBefore(data, c, |data|) == c
  {
    PrefixShares(data, c, |data|);
    var v := Values(data);
    assert v[..|data|] == v;
    var t := Total(data);
    assert Chart.Sum(v) == t;
    assert t / t == 1.0;
  }

  lemma LastDashCloses(data: seq<TierData>, c: real)
    requires Total(data) != 0.0 && |data| > 0
    requires LengthBefore(data, c, |data|) == c
    ensures Segments(data, c)[|data| - 1].offset - Segments(data, c)[|data| - 1].dash == c * 0.25 - c
  {
    var n := |data|;
    var last := Segments(data, c)[n - 1];
    assert last == SegmentAt(data, c, n - 1);
    assert last.offset == c * 0.25 - LengthBefore(data, c, n - 1);
    assert last.dash == Share(data, n - 1) * c;
    assert LengthBefore(data, c, n) == LengthBefore(data, c, n - 1) + Share(data, n - 1) * c;
  }

  /** With non-negative values and a positive total each share is between
      0 and 1. */
  lemma {:induction false} SharesBounded(data: seq<TierData>, k: nat)
    requires k < |data| && forall j :: 0 <= j < |data| ==> data[j].value >= 0.0
    requires Total(data) > 0.0
    ensures 0.0 <= Share(data, k) <= 1.0
  {
    ValueAtMostSum(Values(data), k);
  }

  /** A non-negative entry is at most the sum of a non-negative sequence. */
  lemma {:induction false} ValueAtMostSum(s: seq<real>, k: nat)
    requires k < |s| && forall j :: 0 <= j < |s| ==> s[j] >= 0.0
    ensures 0.0 <= s[k] <= Chart.Sum(s)
  {
    var n := |s| - 1;
    NonNegativeSum(s[..n]);
    if k < n {
      ValueAtMostSum(s[..n], k);
    }
  }

  lemma {:induction false} NonNegativeSum(s: seq<real>)
    requires forall j :: 0 <= j < |s| ==> s[j] >= 0.0
    ensures Chart.Sum(s) >= 0.0
  {
    if s != [] {
      NonNegativeSum(s[..|s| - 1]);
    }
  }

  /** formatValue, in dollars. */
  function FormatValue(value: real): (c: CompactNumber.Compact)
    ensures c.symbol == "$"
    ensures c.unit == CompactNumber.Millions <==> value >= 1000000.0
    ensures c.unit == CompactNumber.Thousands <==> 1000.0 <= value < 1000000.0
    ensures c.unit == CompactNumber.Units <==> value < 1000.0
    ensures c.amount * CompactNumber.Scale(c.unit) == value
  {
    CompactNumber.Format(value, "$")
  }
}
