/** The three dashboard money formatters share one shape: a currency symbol,
    then the value in millions with one decimal, in thousands with none, or
    as it is.  The decimal rendering itself is not part of this model; a
    formatted value keeps the exact amount and how many decimals it shows. */
module CompactNumber {
  import opened Optional

  datatype Unit = Millions | Thousands | Units

  function Scale(u: Unit): (k: real)
    ensures k >= 1.0
  {
    match u
    case Millions => 1000000.0
    case Thousands => 1000.0
    case Units => 1.0
  }

  /** `symbol + (value / scale).toFixed(d) + suffix`, or `symbol + value` for
      small values (`decimals` is None there: the raw number is shown). */
  datatype Compact = Compact(symbol: string, amount: real, decimals: Option<nat>, unit: Unit)

  /** The unit is the largest of a million and a thousand that the value
      reaches; the shown amount times the unit's scale is the value. */
  function Format(value: real, symbol: string): (c: Compact)
    ensures c.symbol == symbol
    ensures c.amount * Scale(c.unit) == value
    ensures c.unit == Millions <==> value >= 1000000.0
    ensures c.unit == Thousands <==> 1000.0 <= value < 1000000.0
    ensures c.unit == Units <==> value < 1000.0
    ensures c.unit == Millions ==> c.amount >= 1.0 && c.decimals == Some(1)
    ensures c.unit == Thousands ==> 1.0 <= c.amount < 1000.0 && c.decimals == Some(0)
    ensures c.unit == Units ==> c.decimals == None
  {
    if value >= 1000000.0 then Compact(symbol, value / 1000000.0, Some(1), Millions)
    else if value >= 1000.0 then Compact(symbol, value / 1000.0, Some(0), Thousands)
    else Compact(symbol, value, None, Units)
  }
}
