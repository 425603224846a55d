/** The command-center header: the greeting and the shift for the current
    hour (an input here), and the name it greets. */
module DashboardContent {
  import opened Optional
  import Text
  import AuthContext

  /** `getGreeting` for the hour of the day. */
  function Greeting(hour: int): (g: string)
    ensures hour < 12 <==> g == "Good morning"
    ensures 12 <= hour < 17 <==> g == "Good afternoon"
    ensures hour >= 17 <==> g == "Good evening"
  {
    if hour < 12 then "Good morning" else if hour < 17 then "Good afternoon" else "Good evening"
  }

  /** `getCurrentShift`: the day shift runs from 06:00 up to 18:00. */
  function Shift(hour: int): (s: string)
    ensures s == "Day Shift" <==> 6 <= hour < 18
    ensures s == "Night Shift" <==> !(6 <= hour < 18)
  {
    if hour >= 6 && hour < 18 then "Day Shift" else "Night Shift"
  }

  /** Over a day the morning greeting always comes with the night shift before
      06:00 and the evening one with the night shift from 18:00. */
  lemma EarlyAndLateHours(hour: int)
    requires 0 <= hour < 24
    ensures hour < 6 ==> Greeting(hour) == "Good morning" && Shift(hour) == "Night Shift"
    ensures hour >= 18 ==> Greeting(hour) == "Good evening" && Shift(hour) == "Night Shift"
  {
  }

  /** `user?.name?.split(" ")[0] || "Operator"`: the name's first
      space-separated word, or "Operator" when there is no user, no name, or
      the name starts with a space. */
  function GreetingName(user: Option<AuthContext.User>): (n: string)
    ensures n != "" && ' ' !in n
    ensures user.None? || user.value.name.None? ==> n == "Operator"
    ensures user.Some? && user.value.name.Some? && user.value.name.value != "" && user.value.name.value[0] != ' ' ==>
      |n| <= |user.value.name.value| && n == user.value.name.value[..|n|] && (|n| == |user.value.name.value| || user.value.name.value[|n|] == ' ')
    ensures user.Some? && user.value.name.Some? && (user.value.name.value == "" || user.value.name.value[0] == ' ') ==>
      n == "Operator"
  {
    if user.None? || user.value.name.None? then "Operator"
    else
      var name := user.value.name.value;
      var first := Text.Split(name, ' ')[0];
      Text.SplitFirst(name, ' ');
      if first == "" then "Operator" else first
  }
}
