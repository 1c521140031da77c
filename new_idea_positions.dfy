/** The new-idea command: for every group of liquidations at one timestamp it
    looks, within the hour after the liquidation candle, for the first close
    beyond that candle, and then for the first later close 0.5% away from the
    confirmation close; the breakout's direction is the position's side, and
    the position is "live" when that is the liquidation's own side. */
module NewIdeaPositions {
  import opened Market
  import opened Scans

  /** The smallest total amount a liquidation group needs. */
  const MIN_AMOUNT: real := 100.0

  /** The candle the liquidations happened in. */
  function LiquidationCandles(store: seq<Candle>, liq: LiquidationGroup): seq<Candle>
  {
    Between(store, liq.time, liq.time + 1)
  }

  /** The candles from five minutes to an hour after the liquidation. */
  function FirstCandles(store: seq<Candle>, liq: LiquidationGroup): seq<Candle>
  {
    Between(store, liq.time + FIVE_MINUTES, liq.time + HOUR + 1)
  }

  /** Every candle after the confirmation candle. */
  function EntryCandles(store: seq<Candle>, confirmation: Candle): seq<Candle>
  {
    From(store, confirmation.time + 1)
  }

  /** The position written for an entry on `b`: its side is the breakout's,
      the count of candles before entry is the confirmation's position, and
      the number of confirming candles is left at 0. */
  function Entered(b: Breakout, liq: LiquidationGroup, confirmation: Found): (p: Position)
    ensures p.side == (if b.up then Long else Short)
    ensures p.strategyType == (if p.side == liq.side then "live" else "reversed")
    ensures p.start == b.candle.time + FIVE_MINUTES && p.entryPrice == Some(EntryPrice(p.side, b.candle.close))
    ensures p.candlesBeforeEntry == confirmation.index && p.confirmationCandles == 0
    ensures p.liquidationTime == liq.time && p.liquidationAmount == liq.totalAmount && p.nrOfLiquidations == liq.count
    ensures p.movingAverage50 == None && p.liquidationClosingPrice == None && p.amount == 0.0001
    ensures p.timeframe == "5m"
  {
    var side := if b.up then Long else Short;
    Position(side, b.candle.time + FIVE_MINUTES, liq.time, if side == liq.side then "live" else "reversed",
             liq.totalAmount, liq.count, 0, confirmation.index, 0.0001, Some(EntryPrice(side, b.candle.close)),
             None, None, FIVE_MINUTE_TIMEFRAME)
  }

  /** The entry after a confirmation: the first later close more than 0.5%
      above (tested first) or below the confirmation close. */
  function EnterAfter(store: seq<Candle>, liq: LiquidationGroup, confirmation: Found): Option<Position>
  {
    var band := confirmation.candle.close;
    match FirstBreakout(EntryCandles(store, confirmation.candle), band * 1.005, band * 0.995, 0)
    case None => None
    case Some(b) => Some(Entered(b, liq, confirmation))
  }

  /** What an entry looks like: on a later close outside the band, on the
      side it left the band, every earlier close inside it; "live" exactly
      when it trades on the liquidation's side. */
  lemma EnteredShape(store: seq<Candle>, liq: LiquidationGroup, confirmation: Found)
    requires EnterAfter(store, liq, confirmation).Some?
    ensures var p := EnterAfter(store, liq, confirmation).value;
            var after := EntryCandles(store, confirmation.candle);
            var band := confirmation.candle.close;
            && p.candlesBeforeEntry == confirmation.index
            && exists k :: 0 <= k < |after|
                 && p.start == after[k].time + FIVE_MINUTES
                 && p.entryPrice == Some(EntryPrice(p.side, after[k].close))
                 && (p.side == Long <==> after[k].close > band * 1.005)
                 && (p.side == Short ==> after[k].close < band * 0.995)
                 && (forall j :: 0 <= j < k ==> band * 0.995 <= after[j].close <= band * 1.005)
    ensures var p := EnterAfter(store, liq, confirmation).value;
            && (p.strategyType == "live" <==> p.side == liq.side)
            && (p.strategyType == "reversed" <==> p.side == Flip(liq.side))
            && p.liquidationTime == liq.time && p.liquidationAmount == liq.totalAmount && p.nrOfLiquidations == liq.count
  {
    var band := confirmation.candle.close;
    var b := FirstBreakout(EntryCandles(store, confirmation.candle), band * 1.005, band * 0.995, 0).value;
    var k := b.index - 1;
    assert EntryCandles(store, confirmation.candle)[k] == b.candle;
    assert |"live"| != |"reversed"|;
  }

  /** One iteration of the command for a liquidation group. */
  function ForLiquidation(store: seq<Candle>, liq: LiquidationGroup): Option<Position>
  {
    if liq.totalAmount < MIN_AMOUNT then None
    else
      var liquidationCandles := LiquidationCandles(store, liq);
      if liquidationCandles == [] then None
      else
        match FirstConfirmation(liq.side, liquidationCandles[0], FirstCandles(store, liq), 0)
        case None => None
        case Some(confirmation) => EnterAfter(store, liq, confirmation)
  }

  /** What a created position looks like: for a group of at least 100 with a
      liquidation candle, confirmed by the first candle of the following hour
      that closed beyond that candle, entered after it as EnteredShape says,
      "live" exactly when it trades on the liquidation's side. */
  lemma CreatedShape(store: seq<Candle>, liq: LiquidationGroup)
    requires ForLiquidation(store, liq).Some?
    ensures var p := ForLiquidation(store, liq).value;
            var liquidationCandle := LiquidationCandles(store, liq)[0];
            var first := FirstCandles(store, liq);
            && liq.totalAmount >= MIN_AMOUNT
            && 1 <= p.candlesBeforeEntry <= |first|
            && Confirms(liq.side, liquidationCandle, first[p.candlesBeforeEntry - 1])
            && (forall j :: 0 <= j < p.candlesBeforeEntry - 1 ==> !Confirms(liq.side, liquidationCandle, first[j]))
            && ForLiquidation(store, liq) == EnterAfter(store, liq, Found(p.candlesBeforeEntry, first[p.candlesBeforeEntry - 1]))
            && (p.strategyType == "live" <==> p.side == liq.side)
            && (p.strategyType == "reversed" <==> p.side == Flip(liq.side))
            && p.liquidationTime == liq.time && p.liquidationAmount == liq.totalAmount && p.nrOfLiquidations == liq.count
  {
    var liquidationCandle := LiquidationCandles(store, liq)[0];
    var first := FirstCandles(store, liq);
    var confirmation := FirstConfirmation(liq.side, liquidationCandle, first, 0).value;
    assert ForLiquidation(store, liq) == EnterAfter(store, liq, confirmation);
    EnteredShape(store, liq, confirmation);
    assert confirmation == Found(confirmation.index, first[confirmation.index - 1]);
  }

  /** The positions a per-group step writes for the first n groups, in order. */
  function Collect(step: LiquidationGroup -> Option<Position>, liqs: seq<LiquidationGroup>, n: nat): (r: seq<Position>)
    requires n <= |liqs|
    ensures |r| <= n
  {
    if n == 0 then []
    else
      Collect(step, liqs, n - 1) + Listed(step(liqs[n - 1]))
  }

  /** The positions written for the first n liquidation groups, in order. */
  function Through(store: seq<Candle>, liqs: seq<LiquidationGroup>, n: nat): (r: seq<Position>)
    requires n <= |liqs|
    ensures |r| <= n
  {
    Collect(liq => ForLiquidation(store, liq), liqs, n)
  }

  /** One more liquidation group appends what it yields. */
  lemma ThroughStep(store: seq<Candle>, liqs: seq<LiquidationGroup>, n: nat)
    requires n < |liqs|
    ensures Through(store, liqs, n + 1) == Through(store, liqs, n) + Listed(ForLiquidation(store, liqs[n]))
  {
  }

  /** A position written for `liq`: dated at the liquidation, and "live"
      exactly when it trades on the liquidation's side. */
  predicate TaggedFor(p: Position, liq: LiquidationGroup)
  {
    p.liquidationTime == liq.time && (p.strategyType == "live" <==> p.side == liq.side)
  }

  /** The position a group yields is tagged for it. */
  lemma TagRule(store: seq<Candle>, liq: LiquidationGroup)
    ensures ForLiquidation(store, liq).Some? ==> TaggedFor(ForLiquidation(store, liq).value, liq)
  {
    if ForLiquidation(store, liq).Some? {
      CreatedShape(store, liq);
    }
  }

  /** Every position of `created` is tagged for one of the first n groups. */
  predicate FromGroups(created: seq<Position>, liqs: seq<LiquidationGroup>, n: nat)
    requires n <= |liqs|
  {
    forall p :: p in created ==> exists k :: 0 <= k < n && TaggedFor(p, liqs[k])
  }

  /** A step that tags what it yields for its group writes only positions
      tagged for one of the groups it went through. */
  lemma {:induction false} CollectTagged(step: LiquidationGroup -> Option<Position>, liqs: seq<LiquidationGroup>, n: nat)
    requires n <= |liqs|
    requires forall liq :: step(liq).Some? ==> TaggedFor(step(liq).value, liq)
    ensures FromGroups(Collect(step, liqs, n), liqs, n)
  {
    if n > 0 {
      CollectTagged(step, liqs, n - 1);
      var prev, last := Collect(step, liqs, n - 1), Listed(step(liqs[n - 1]));
      assert Collect(step, liqs, n) == prev + last;
      forall p | p in last
        ensures TaggedFor(p, liqs[n - 1])
      {
      }
    }
  }

  /** Every written position comes from one of the groups processed and is
      tagged for it. */
  lemma CreatedFromGroups(store: seq<Candle>, liqs: seq<LiquidationGroup>, n: nat)
    requires n <= |liqs|
    ensures FromGroups(Through(store, liqs, n), liqs, n)
  {
    forall liq: LiquidationGroup
      ensures ForLiquidation(store, liq).Some? ==> TaggedFor(ForLiquidation(store, liq).value, liq)
    {
      TagRule(store, liq);
    }
    CollectTagged(liq => ForLiquidation(store, liq), liqs, n);
  }

  /** One liquidation group, as the loop body processes it. */
  method ProcessLiquidation(store: seq<Candle>, liq: LiquidationGroup) returns (r: Option<Position>)
    ensures r == ForLiquidation(store, liq)
  {
    if liq.totalAmount < MIN_AMOUNT {
      return None;
    }
    var liquidationCandles := LiquidationCandles(store, liq);
    if liquidationCandles == [] {
      return None;
    }
    var found := ScanConfirmation(liq.side, liquidationCandles[0], FirstCandles(store, liq));
    if found.None? {
      return None;
    }
    r := ScanEntry(store, liq, found.value);
  }

  /** The entry loop after a confirmation. */
  method ScanEntry(store: seq<Candle>, liq: LiquidationGroup, confirmation: Found) returns (r: Option<Position>)
    ensures r == EnterAfter(store, liq, confirmation)
  {
    var band := confirmation.candle.close;
    var entry := ScanBreakout(EntryCandles(store, confirmation.candle), band * 1.005, band * 0.995);
    if entry.None? {
      return None;
    }
    r := Some(Entered(entry.value, liq, confirmation));
  }

  /** The command over the liquidation groups in time order. */
  method Handle(store: seq<Candle>, liqs: seq<LiquidationGroup>) returns (created: seq<Position>)
    ensures created == Through(store, liqs, |liqs|)
  {
    created := [];
    var i := 0;
    while i < |liqs|
      invariant 0 <= i <= |liqs|
      invariant created == Through(store, liqs, i)
    {
      var position := ProcessLiquidation(store, liqs[i]);
      ThroughStep(store, liqs, i);
      created := created + Listed(position);
      i := i + 1;
    }
  }
}
