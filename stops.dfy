/** The stop rules the what-if views share: how a position can close and how
    the trailing stop follows the price. */
module Stops {
  import opened Market

  /** How a simulated position closed. */
  datatype ExitKind = TrailingStop | StopLoss | TakeProfit

  /** The largest of three prices. */
  function Max3(a: real, b: real, c: real): (r: real)
    ensures r >= a && r >= b && r >= c
    ensures r == a || r == b || r == c
  {
    if a >= b && a >= c then a else if b >= c then b else c
  }

  /** The smallest of three prices. */
  function Min3(a: real, b: real, c: real): (r: real)
    ensures r <= a && r <= b && r <= c
    ensures r == a || r == b || r == c
  {
    if a <= b && a <= c then a else if b <= c then b else c
  }

  /** The LONG trailing stop after a candle: the highest of the previous stop,
      the fixed stop and the candle's high less the trailing percentage. */
  function TrailLong(prev: real, entry: real, sl: real, trailing: real, c: Candle): (r: real)
    ensures r >= prev && r >= entry - entry * sl / 100.0 && r >= c.high - c.high * trailing / 100.0
    ensures r == prev || r == entry - entry * sl / 100.0 || r == c.high - c.high * trailing / 100.0
  {
    Max3(prev, entry - entry * sl / 100.0, c.high - c.high * trailing / 100.0)
  }

  /** The SHORT trailing stop after a candle: the lowest of the previous stop,
      the fixed stop and the candle's low plus the trailing percentage. */
  function TrailShort(prev: real, entry: real, sl: real, trailing: real, c: Candle): (r: real)
    ensures r <= prev && r <= entry + entry * sl / 100.0 && r <= c.low + c.low * trailing / 100.0
    ensures r == prev || r == entry + entry * sl / 100.0 || r == c.low + c.low * trailing / 100.0
  {
    Min3(prev, entry + entry * sl / 100.0, c.low + c.low * trailing / 100.0)
  }
}
