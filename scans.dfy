/** The two candle scans the position-discovery commands share: the search for
    the first candle confirming a liquidation and the search for the first
    close that breaks out of a band around a reference price. Both stop at the
    first candle found and report its 1-based position in the scanned list. */
module Scans {
  import opened Market

  /** A candle found by a scan and its 1-based position in the scanned list. */
  datatype Found = Found(index: nat, candle: Candle)

  /** A close beyond the liquidation candle on the liquidation's side: above
      its high after LONG liquidations, below its low after SHORT ones. */
  predicate Confirms(side: Side, liq: Candle, c: Candle)
  {
    if side == Long then c.close > liq.high else c.close < liq.low
  }

  /** The first candle of `cs[from..]` that confirms. */
  function FirstConfirmation(side: Side, liq: Candle, cs: seq<Candle>, from: nat): (r: Option<Found>)
    requires from <= |cs|
    ensures r.Some? ==> from < r.value.index <= |cs| && r.value.candle == cs[r.value.index - 1] &&
                        Confirms(side, liq, r.value.candle) &&
                        forall j :: from <= j < r.value.index - 1 ==> !Confirms(side, liq, cs[j])
    ensures r.None? ==> forall j :: from <= j < |cs| ==> !Confirms(side, liq, cs[j])
    decreases |cs| - from
  {
    if from == |cs| then None
    else if Confirms(side, liq, cs[from]) then Some(Found(from + 1, cs[from]))
    else FirstConfirmation(side, liq, cs, from + 1)
  }

  /** The confirmation loop: enumerate from 1 and break on the first confirming candle. */
  method ScanConfirmation(side: Side, liq: Candle, cs: seq<Candle>) returns (r: Option<Found>)
    ensures r == FirstConfirmation(side, liq, cs, 0)
  {
    var i := 0;
    while i < |cs|
      invariant 0 <= i <= |cs|
      invariant FirstConfirmation(side, liq, cs, 0) == FirstConfirmation(side, liq, cs, i)
    {
      if Confirms(side, liq, cs[i]) {
        return Some(Found(i + 1, cs[i]));
      }
      i := i + 1;
    }
    r := None;
  }

  /** A close that leaves the band: above `upper` (tested first) or below `lower`. */
  datatype Breakout = Breakout(index: nat, candle: Candle, up: bool)

  /** The first candle of `cs[from..]` whose close leaves [lower, upper]. */
  function FirstBreakout(cs: seq<Candle>, upper: real, lower: real, from: nat): (r: Option<Breakout>)
    requires from <= |cs|
    ensures r.Some? ==> from < r.value.index <= |cs| && r.value.candle == cs[r.value.index - 1] &&
                        (r.value.up <==> r.value.candle.close > upper) &&
                        (!r.value.up ==> r.value.candle.close < lower) &&
                        forall j :: from <= j < r.value.index - 1 ==> lower <= cs[j].close <= upper
    ensures r.None? ==> forall j :: from <= j < |cs| ==> lower <= cs[j].close <= upper
    decreases |cs| - from
  {
    if from == |cs| then None
    else if cs[from].close > upper then Some(Breakout(from + 1, cs[from], true))
    else if cs[from].close < lower then Some(Breakout(from + 1, cs[from], false))
    else FirstBreakout(cs, upper, lower, from + 1)
  }

  /** The entry loop: enumerate from 1 and break on the first close above
      the band or, failing that, below it. */
  method ScanBreakout(cs: seq<Candle>, upper: real, lower: real) returns (r: Option<Breakout>)
    ensures r == FirstBreakout(cs, upper, lower, 0)
  {
    var i := 0;
    while i < |cs|
      invariant 0 <= i <= |cs|
      invariant FirstBreakout(cs, upper, lower, 0) == FirstBreakout(cs, upper, lower, i)
    {
      if cs[i].close > upper {
        return Some(Breakout(i + 1, cs[i], true));
      }
      if cs[i].close < lower {
        return Some(Breakout(i + 1, cs[i], false));
      }
      i := i + 1;
    }
    r := None;
  }
}
