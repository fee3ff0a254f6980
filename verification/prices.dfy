/**
  The price-change badge both market pages draw next to a price. A change is
  a percentage with one decimal, kept here in tenths of a percent (3.2 is 32).
 */
module PriceChange {

  datatype Trend = Up | Down
  datatype Tone = Success | Destructive

  /** The arrow, the colour and the sign prefix drawn before the figure. */
  datatype ChangeBadge = ChangeBadge(trend: Trend, tone: Tone, prefix: string)

  /** Only a strictly positive change is drawn rising, green and with a `+`. */
  function BadgeFor(change: int): (b: ChangeBadge)
    ensures b.trend == Up <==> change > 0
    ensures b.tone == Success <==> change > 0
    ensures b.prefix == "+" <==> change > 0
    ensures b.prefix == "" <==> change <= 0
  {
    if change > 0 then ChangeBadge(Up, Success, "+") else ChangeBadge(Down, Destructive, "")
  }
}
