/** The live operations feed: each event's relative age and its icon and
    colour.  The clock is an input: the age is given as the difference in
    milliseconds between now and the event's timestamp. */
module ActivityTicker {
  import Text

  datatype Age = Minutes(m: int) | Hours(h: int) | Days(d: int)

  /** Floor division, as `Math.floor(a / b)` for a positive divisor. */
  lemma FloorNested(a: int)
    ensures (a / 60000) / 60 == a / 3600000
    ensures ((a / 60000) / 60) / 24 == a / 86400000
  {
    var q := a / 86400000;
    var r := a % 86400000;
    assert a == q * 86400000 + r && 0 <= r < 86400000;
    var m := r / 60000;
    assert r == m * 60000 + r % 60000;
    assert a / 60000 == q * 1440 + m;
    assert (a / 60000) / 60 == q * 24 + m / 60;
    assert a / 3600000 == q * 24 + r / 3600000;
    assert m / 60 == r / 3600000;
  }

  /** `getRelativeTime`'s unit: minutes below an hour's worth of
      milliseconds (negative differences included), then hours below a day,
      then days; each count is the floor of the difference in that unit. */
  function AgeOf(diffMs: int): (a: Age)
    ensures diffMs < 3600000 ==> a == Minutes(diffMs / 60000)
    ensures 3600000 <= diffMs < 86400000 ==> a == Hours(diffMs / 3600000)
    ensures diffMs >= 86400000 ==> a == Days(diffMs / 86400000)
  {
    FloorNested(diffMs);
    var minutes := diffMs / 60000;
    var hours := minutes / 60;
    var days := hours / 24;
    if minutes < 60 then Minutes(minutes)
    else if hours < 24 then Hours(hours)
    else Days(days)
  }

  function RelativeTime(diffMs: int): (s: string)
    ensures |s| >= 6 && s[|s| - 4..] == " ago"
    ensures s[|s| - 5] == 'm' <==> diffMs < 3600000
    ensures s[|s| - 5] == 'h' <==> 3600000 <= diffMs < 86400000
    ensures s[|s| - 5] == 'd' <==> diffMs >= 86400000
    ensures diffMs < 0 ==> s[0] == '-'
    ensures diffMs < 3600000 ==> s == Text.IntToString(diffMs / 60000) + "m ago"
    ensures 3600000 <= diffMs < 86400000 ==> s == Text.IntToString(diffMs / 3600000) + "h ago"
    ensures diffMs >= 86400000 ==> s == Text.IntToString(diffMs / 86400000) + "d ago"
  {
    match AgeOf(diffMs)
    case Minutes(m) => Text.IntToString(m) + "m ago"
    case Hours(h) => Text.IntToString(h) + "h ago"
    case Days(d) => Text.IntToString(d) + "d ago"
  }

  /** One millisecond short of an hour is still minutes; an hour is "1h". */
  lemma RelativeTimeBoundaries()
    ensures RelativeTime(3599999) == "59m ago"
    ensures RelativeTime(3600000) == "1h ago"
    ensures RelativeTime(86400000) == "1d ago"
    ensures RelativeTime(-1) == "-1m ago"
  {
    LastMinute();
    FirstHour();
    FirstDay();
    JustAhead();
  }

  lemma LastMinute()
    ensures RelativeTime(3599999) == "59m ago"
  {
    assert 3599999 / 60000 == 59;
    assert Text.NatToString(59) == Text.NatToString(5) + [Text.DigitChar(9)];
  }

  lemma FirstHour()
    ensures RelativeTime(3600000) == "1h ago"
  {
    assert 3600000 / 3600000 == 1;
  }

  lemma FirstDay()
    ensures RelativeTime(86400000) == "1d ago"
  {
    assert 86400000 / 86400000 == 1;
  }

  lemma JustAhead()
    ensures RelativeTime(-1) == "-1m ago"
  {
    assert -1 / 60000 == -1;
  }

  /** For an event in the past, the text before the unit letter is a decimal
      number that reads back as the floored count in that unit. */
  lemma RelativeTimeReadsBack(diffMs: int)
    requires diffMs >= 0
    ensures var s := RelativeTime(diffMs);
      var digits := s[..|s| - 5];
      (forall i :: 0 <= i < |digits| ==> Text.IsDigit(digits[i])) &&
      Text.ParseNat(digits) == (if diffMs < 3600000 then diffMs / 60000
                                else if diffMs < 86400000 then diffMs / 3600000
                                else diffMs / 86400000)
  {
    var n := if diffMs < 3600000 then diffMs / 60000
             else if diffMs < 86400000 then diffMs / 3600000
             else diffMs / 86400000;
    var u := if diffMs < 3600000 then "m ago" else if diffMs < 86400000 then "h ago" else "d ago";
    var s := RelativeTime(diffMs);
    assert s == Text.NatToString(n) + u;
    assert s[..|s| - 5] == Text.NatToString(n);
    Text.ParseNatToString(n);
  }

  datatype EventIcon = Shield | AlertTriangle | UserCheck | Clock | Bell | FileCheck

  /** The six event types the feed knows. */
  const KnownTypes: set<string> := {"patrol", "incident", "check-in", "shift-change", "alert", "compliance"}

  const FallbackColor := "text-gray-500 bg-gray-50"

  /** `eventIcons[type] || Shield` and `eventColors[type] || "text-gray-500 bg-gray-50"`. */
  function EventStyle(eventType: string): (r: (EventIcon, string))
    ensures eventType !in KnownTypes ==> r == (Shield, FallbackColor)
    ensures eventType in KnownTypes ==> r.1 != FallbackColor
    ensures r.0 == Shield <==> eventType == "patrol" || eventType !in KnownTypes
  {
    if eventType == "patrol" then (Shield, "text-portfolio-primary bg-portfolio-primary/10")
    else if eventType == "incident" then (AlertTriangle, "text-portfolio-risk bg-portfolio-risk-light")
    else if eventType == "check-in" then (UserCheck, "text-portfolio-growth bg-portfolio-growth-light")
    else if eventType == "shift-change" then (Clock, "text-portfolio-stable bg-portfolio-stable-light")
    else if eventType == "alert" then (Bell, "text-[#FF6B35] bg-[#FF6B35]/10")
    else if eventType == "compliance" then (FileCheck, "text-teal bg-teal/10")
    else (Shield, FallbackColor)
  }
}
