/** The financial score cards: the strength band of a score, the half-circle
    dash offset, the one-shot score generator, the staggered appearance
    counter, and what each card shows.  The circle's length is a positive
    parameter; random draws are inputs. */
module FinancialScoreCards {
  import opened Optional
  import Text

  datatype Strength = NoStrength | Weak | Moderate | Strong

  /** A score is a number or null. */
  type Score = Option<real>

  /** `!score`: null and 0 are falsy. */
  predicate Falsy(score: Score) { score.None? || score.value == 0.0 }

  /** `Utils.getStrength`.  Every caller passes the cards' maximum, 100. */
  function GetStrength(score: Score, maxScore: real): (s: Strength)
    requires maxScore > 0.0
    ensures s == NoStrength <==> Falsy(score)
    ensures !Falsy(score) ==> (s == Strong <==> score.value >= 0.8 * maxScore)
    ensures !Falsy(score) ==> (s == Moderate <==> 0.4 * maxScore <= score.value < 0.8 * maxScore)
    ensures !Falsy(score) ==> (s == Weak <==> score.value < 0.4 * maxScore)
  {
    if Falsy(score) then NoStrength
    else
      var percent := score.value / maxScore;
      PercentAtLeast(score.value, maxScore, 0.8);
      PercentAtLeast(score.value, maxScore, 0.4);
      if percent >= 0.8 then Strong
      else if percent >= 0.4 then Moderate
      else Weak
  }

  lemma PercentAtLeast(v: real, m: real, t: real)
    requires m > 0.0
    ensures v / m >= t <==> v >= t * m
  {
    assert v == (v / m) * m;
    if v / m >= t {
      assert (v / m) * m >= t * m;
    } else {
      assert (v / m) * m < t * m;
    }
  }

  function Rank(s: Strength): nat
  {
    match s
    case NoStrength => 0
    case Weak => 1
    case Moderate => 2
    case Strong => 3
  }

  /** Among non-zero scores, a higher score never has a lower band; negative
      scores are Weak. */
  lemma StrengthMonotone(a: real, b: real, maxScore: real)
    requires maxScore > 0.0 && a != 0.0 && b != 0.0 && a <= b
    ensures Rank(GetStrength(Some(a), maxScore)) <= Rank(GetStrength(Some(b), maxScore))
    ensures a < 0.0 ==> GetStrength(Some(a), maxScore) == Weak
  {
  }

  /** The value arc's `strokeDashoffset`, for a circle of length `dist`:
      a quarter turn back when there is no score, otherwise the share of the
      maximum, capped at 1, of half the circle, backwards. */
  function DashOffset(value: Score, max: real, dist: real): (off: real)
    requires max > 0.0 && dist > 0.0
    ensures value.None? ==> off == -(dist / 4.0)
    ensures value.Some? && value.value >= 0.0 ==> -(dist / 2.0) <= off <= 0.0
    ensures value.Some? && value.value >= max ==> off == -(dist / 2.0)
    ensures value.Some? && value.value == 0.0 ==> off == 0.0
    ensures value.Some? && value.value < max ==> off == (value.value / max) * -(dist / 2.0)
  {
    var distHalf := dist / 2.0;
    var distFourth := distHalf / 2.0;
    if value.None? then -distFourth
    else
      var share := if value.value / max < 1.0 then value.value / max else 1.0;
      PercentAtLeast(value.value, max, 1.0);
      ShareScaled(share, distHalf);
      share * -distHalf
  }

  lemma ShareScaled(share: real, h: real)
    requires h > 0.0
    ensures 0.0 <= share <= 1.0 ==> -h <= share * -h <= 0.0
  {
    if 0.0 <= share <= 1.0 {
      assert share * h <= 1.0 * h;
    }
  }

  /** `Math.round(x)`: the nearest integer, halves rounding up. */
  function Round(x: real): (n: int)
    ensures n as real - 0.5 <= x < n as real + 0.5
  {
    (x + 0.5).Floor
  }

  /** `Utils.randomInt(min, max)` for the 32-bit draw `draw`. */
  function RandomInt(min: int, max: int, draw: nat): (r: int)
    requires draw < 0x1_0000_0000 && min <= max
    ensures min <= r <= max
  {
    var value := draw as real / 4294967296.0;
    assert 0.0 <= value < 1.0;
    DrawScaled(value, min as real, max as real);
    Round(min as real + (max as real - min as real) * value)
  }

  lemma DrawScaled(value: real, lo: real, hi: real)
    requires 0.0 <= value < 1.0 && lo <= hi
    ensures lo <= lo + (hi - lo) * value <= hi
  {
    NonNegProduct(hi - lo, 1.0 - value);
    NonNegProduct(hi - lo, value);
  }

  lemma NonNegProduct(a: real, b: real)
    requires a >= 0.0 && b >= 0.0
    ensures a * b >= 0.0
  {
  }

  /** The digits shown: `String(Math.floor(value)).split("")`. */
  function Digits(value: real): (d: seq<char>)
    ensures |d| >= 1
    ensures value >= 0.0 ==> (forall i :: 0 <= i < |d| ==> Text.IsDigit(d[i])) && Text.ParseNat(d) == value.Floor
    ensures value < 0.0 ==> d[0] == '-'
  {
    if value >= 0.0 then Text.ParseNatToString(value.Floor); Text.IntToString(value.Floor)
    else Text.IntToString(value.Floor)
  }

  datatype ScoreLabel = NoScoreLabel | OutOf(max: real)

  /** What a card shows. */
  datatype CardView = CardView(badge: Option<Strength>, digits: seq<char>, caption: ScoreLabel,
                               offset: real, button: string)

  /** A card for score `score` with maximum 100 on a circle of length
      `dist`: the badge is hidden iff the strength is None (so also for 0),
      the button reads "Learn more" iff there is a score, 0 included. */
  function View(score: Score, dist: real): (v: CardView)
    requires dist > 0.0
    ensures v.badge.None? <==> Falsy(score)
    ensures v.badge.Some? ==> v.badge.value == GetStrength(score, 100.0) && v.badge.value != NoStrength
    ensures v.caption == (if score.Some? then OutOf(100.0) else NoScoreLabel)
    ensures score.Some? ==> v.digits == Digits(score.value)
    ensures score.None? ==> v.digits == []
    ensures v.offset == DashOffset(score, 100.0, dist)
    ensures v.button == "Learn more" <==> score.Some?
  {
    var strength := GetStrength(score, 100.0);
    CardView(if strength == NoStrength then None else Some(strength),
             if score.Some? then Digits(score.value) else [],
             if score.Some? then OutOf(100.0) else NoScoreLabel,
             DashOffset(score, 100.0, dist),
             if score.Some? then "Learn more" else "Calculate your score")
  }

  /** A zero score is shown with its digit and "Learn more" but no badge. */
  lemma ZeroScoreHasNoBadge(dist: real)
    requires dist > 0.0
    ensures View(Some(0.0), dist).badge.None? && View(Some(0.0), dist).button == "Learn more"
  {
  }

  /** The provider's counter: `counterRef.current++`. */
  class Counter {
    var current: nat

    constructor ()
      ensures current == 0
    {
      current := 0;
    }

    method GetNextIndex() returns (i: nat)
      modifies this
      ensures i == old(current) && current == old(current) + 1
    {
      i := current;
      current := current + 1;
    }
  }

  /** The delay, in milliseconds, before the card with this index appears. */
  function AppearDelay(index: nat): (ms: nat)
    ensures ms >= 300
  {
    300 + index * 200
  }

  /** One score card: the index it took from the counter on first render
      and its score. */
  class ScoreCard {
    var index: Option<nat>
    var score: Score

    constructor (initialScore: Option<real>)
      ensures index == None && score == initialScore
    {
      index, score := None, initialScore;
    }

    /** A render: the index is taken from the counter once, on the first
        render, and kept after that. */
    method Render(counter: Counter)
      modifies this, counter
      ensures old(index).None? ==> index == Some(old(counter.current)) && counter.current == old(counter.current) + 1
      ensures old(index).Some? ==> index == old(index) && counter.current == old(counter.current)
      ensures score == old(score)
    {
      if index.None? {
        var i := counter.GetNextIndex();
        index := Some(i);
      }
    }

    /** `handleGenerateScore`: only a card without a score gets one, drawn
        in [0, 100]. */
    method HandleGenerateScore(draw: nat)
      requires draw < 0x1_0000_0000
      modifies this
      ensures old(score).None? ==> score == Some(RandomInt(0, 100, draw) as real)
      ensures old(score).Some? ==> score == old(score)
      ensures score.Some? && old(score).None? ==> 0.0 <= score.value <= 100.0
      ensures index == old(index)
    {
      if score.None? {
        score := Some(RandomInt(0, 100, draw) as real);
      }
    }
  }

  /** Mounting `n` cards under one provider: they take the indices 0, 1, 2, ...
      in order. */
  method MountCards(initial: seq<Option<real>>) returns (cards: seq<ScoreCard>, counter: Counter)
    ensures |cards| == |initial| && counter.current == |initial|
    ensures forall k :: 0 <= k < |cards| ==> cards[k].index == Some(k) && cards[k].score == initial[k]
    ensures fresh(counter)
  {
    counter := new Counter();
    cards := [];
    var k := 0;
    while k < |initial|
      invariant 0 <= k <= |initial| && |cards| == k && counter.current == k
      invariant forall j :: 0 <= j < k ==> cards[j].index == Some(j) && cards[j].score == initial[j]
      invariant forall j :: 0 <= j < k ==> fresh(cards[j])
    {
      var card := new ScoreCard(initial[k]);
      card.Render(counter);
      cards := cards + [card];
      k := k + 1;
    }
  }
}
