/** The liquidation command: for every group of liquidations at one timestamp
    it looks for a rise in volume on the liquidation candle, a confirming close
    beyond the liquidation candle within the next two candles, and then, within
    a day, the first close that leaves a band around the confirmation close; a
    breakout against the liquidation's side creates a "reversed" position. */
module CreatePositions {
  import opened Market
  import opened Scans

  /** The sum of the closes of `cs`. */
  function SumCloses(cs: seq<Candle>): real
  {
    if cs == [] then 0.0 else SumCloses(cs[..|cs| - 1]) + cs[|cs| - 1].close
  }

  /** A sum of closes lies between its count times the lowest and the highest close. */
  lemma {:induction false} SumClosesBounds(cs: seq<Candle>, lo: real, hi: real)
    requires forall j :: 0 <= j < |cs| ==> lo <= cs[j].close <= hi
    ensures |cs| as real * lo <= SumCloses(cs) <= |cs| as real * hi
  {
    if cs != [] {
      SumClosesBounds(cs[..|cs| - 1], lo, hi);
    }
  }

  const MA_LENGTH: nat := 50

  /** The 50-candle moving average of the closes before `t`: the mean of the
      50 latest candles before it, or none when fewer than 50 exist. */
  function Ma50(store: seq<Candle>, t: int): Option<real>
  {
    var before := Before(store, t);
    if |before| >= MA_LENGTH then Some(SumCloses(before[|before| - MA_LENGTH..]) / MA_LENGTH as real) else None
  }

  /** The moving average lies within the range of the closes it averages. */
  lemma Ma50Bounds(store: seq<Candle>, t: int, lo: real, hi: real)
    requires forall c :: c in store ==> lo <= c.close <= hi
    ensures Ma50(store, t).Some? <==> |Before(store, t)| >= MA_LENGTH
    ensures Ma50(store, t).Some? ==> lo <= Ma50(store, t).value <= hi
  {
    var before := Before(store, t);
    if |before| >= MA_LENGTH {
      var last := before[|before| - MA_LENGTH..];
      forall j | 0 <= j < |last| ensures lo <= last[j].close <= hi {
        assert last[j] == before[|before| - MA_LENGTH + j];
        assert before[|before| - MA_LENGTH + j] in before;
      }
      SumClosesBounds(last, lo, hi);
      assert |last| == MA_LENGTH;
      assert Ma50(store, t).value == SumCloses(last) / 50.0;
    }
  }

  /** What one liquidation group yields. */
  datatype Outcome =
    | Created(position: Position)
    | Skipped
    | IndexError  // the volume window holds a single candle, so its second one is missing

  /** The smallest total amount a liquidation group needs. */
  const MIN_AMOUNT: real := 100.0

  /** The candle the liquidations happened in. */
  function LiquidationCandles(store: seq<Candle>, liq: LiquidationGroup): seq<Candle>
  {
    Between(store, liq.time, liq.time + 1)
  }

  /** The candles from five minutes before to ten minutes after the liquidation. */
  function VolumeCandles(store: seq<Candle>, liq: LiquidationGroup): seq<Candle>
  {
    Between(store, liq.time - FIVE_MINUTES, liq.time + 2 * FIVE_MINUTES + 1)
  }

  /** The band edges `distance` percent above and below a close. */
  function Upper(close: real, distance: real): real
  {
    close * (1.0 + distance / 100.0)
  }

  function Lower(close: real, distance: real): real
  {
    close * (1.0 - distance / 100.0)
  }

  /** The candles of the day after the confirmation candle. */
  function EntryCandles(store: seq<Candle>, confirmation: Candle): seq<Candle>
  {
    Between(store, confirmation.time + 1, confirmation.time + DAY + 1)
  }

  /** The entry after a confirmation: the first close more than `distance`
      percent above or below the confirmation close; a breakout on the
      liquidation's own side ends the search without a position, one against
      it creates a position on that side. */
  function EnterAfter(store: seq<Candle>, liq: LiquidationGroup, liquidationCandle: Candle, confirmation: Found,
                      distance: real): Outcome
  {
    var band := confirmation.candle.close;
    match FirstBreakout(EntryCandles(store, confirmation.candle), Upper(band, distance), Lower(band, distance), 0)
    case None => Skipped
    case Some(b) =>
      var side := if b.up then Long else Short;
      if side == liq.side then Skipped
      else Created(Entered(side, b, liq, confirmation.index, Ma50(store, liq.time), liquidationCandle))
  }

  /** The position written for an entry on `b`. */
  function Entered(side: Side, b: Breakout, liq: LiquidationGroup, confirmationCandles: int, ma50: Option<real>,
                   liquidationCandle: Candle): (p: Position)
    ensures p.side == side && p.strategyType == "reversed"
    ensures p.start == b.candle.time + FIVE_MINUTES && p.entryPrice == Some(EntryPrice(side, b.candle.close))
    ensures p.confirmationCandles == confirmationCandles && p.candlesBeforeEntry == b.index
    ensures p.liquidationTime == liq.time && p.liquidationAmount == liq.totalAmount && p.nrOfLiquidations == liq.count
    ensures p.movingAverage50 == ma50 && p.liquidationClosingPrice == Some(liquidationCandle.close)
    ensures p.amount == 0.0001 && p.timeframe == "5m"
  {
    Position(side, b.candle.time + FIVE_MINUTES, liq.time, "reversed", liq.totalAmount, liq.count,
             confirmationCandles, b.index, 0.0001, Some(EntryPrice(side, b.candle.close)), ma50,
             Some(liquidationCandle.close), FIVE_MINUTE_TIMEFRAME)
  }

  /** What an entry looks like: on the first close of the day after the
      confirmation that left the band, against the liquidation's side, every
      earlier close inside the band. */
  lemma EnteredShape(store: seq<Candle>, liq: LiquidationGroup, liquidationCandle: Candle, confirmation: Found,
                     distance: real)
    requires EnterAfter(store, liq, liquidationCandle, confirmation, distance).Created?
    ensures var p := EnterAfter(store, liq, liquidationCandle, confirmation, distance).position;
            var after := EntryCandles(store, confirmation.candle);
            var upper := Upper(confirmation.candle.close, distance);
            var lower := Lower(confirmation.candle.close, distance);
            && p.side == Flip(liq.side) && p.confirmationCandles == confirmation.index
            && 1 <= p.candlesBeforeEntry <= |after|
            && p.start == after[p.candlesBeforeEntry - 1].time + FIVE_MINUTES
            && (p.side == Long <==> after[p.candlesBeforeEntry - 1].close > upper)
            && (p.side == Short ==> after[p.candlesBeforeEntry - 1].close < lower)
            && (forall j :: 0 <= j < p.candlesBeforeEntry - 1 ==> lower <= after[j].close <= upper)
            && p.entryPrice == Some(EntryPrice(p.side, after[p.candlesBeforeEntry - 1].close))
  {
  }

  /** One iteration of the command for a liquidation group. */
  function ForLiquidation(store: seq<Candle>, liq: LiquidationGroup, distance: real): Outcome
  {
    if liq.totalAmount < MIN_AMOUNT then Skipped
    else
      var liquidationCandles := LiquidationCandles(store, liq);
      var volume := VolumeCandles(store, liq);
      if liquidationCandles == [] || volume == [] then Skipped
      else if |volume| == 1 then IndexError
      else if !(volume[0].volume < volume[1].volume) then Skipped
      else
        match FirstConfirmation(liq.side, liquidationCandles[0], volume[2..], 0)
        case None => Skipped
        case Some(confirmation) => EnterAfter(store, liq, liquidationCandles[0], confirmation, distance)
  }

  /** The command crashes on exactly the large enough groups with a
      liquidation candle whose volume window holds nothing else. */
  lemma IndexErrorCase(store: seq<Candle>, liq: LiquidationGroup, distance: real)
    ensures ForLiquidation(store, liq, distance) == IndexError <==>
            liq.totalAmount >= MIN_AMOUNT && LiquidationCandles(store, liq) != [] && |VolumeCandles(store, liq)| == 1
  {
  }

  /** With the liquidation candle present the volume window is never empty. */
  lemma VolumeWindowHoldsLiquidationCandle(store: seq<Candle>, liq: LiquidationGroup)
    requires LiquidationCandles(store, liq) != []
    ensures LiquidationCandles(store, liq)[0] in VolumeCandles(store, liq)
  {
    assert LiquidationCandles(store, liq)[0] in LiquidationCandles(store, liq);
  }

  /** What a created position looks like: a "reversed" position against the
      liquidation's side, for a group of at least 100, after a volume rise,
      confirmed by the i-th candle after the liquidation candle whose close
      went beyond it, entered on the first close of the following day that left
      the band, every earlier close inside it (see EnteredShape); it carries
      the group's totals, the moving average and the liquidation candle's close. */
  lemma CreatedShape(store: seq<Candle>, liq: LiquidationGroup, distance: real)
    requires ForLiquidation(store, liq, distance).Created?
    ensures var p := ForLiquidation(store, liq, distance).position;
            var liquidationCandle := LiquidationCandles(store, liq)[0];
            var volume := VolumeCandles(store, liq);
            && p.side == Flip(liq.side) && p.strategyType == "reversed"
            && liq.totalAmount >= MIN_AMOUNT && |volume| >= 2 && volume[0].volume < volume[1].volume
            && 1 <= p.confirmationCandles <= |volume| - 2
            && Confirms(liq.side, liquidationCandle, volume[p.confirmationCandles + 1])
            && (forall j :: 2 <= j < p.confirmationCandles + 1 ==> !Confirms(liq.side, liquidationCandle, volume[j]))
            && p.liquidationTime == liq.time && p.liquidationAmount == liq.totalAmount && p.nrOfLiquidations == liq.count
            && p.movingAverage50 == Ma50(store, liq.time) && p.liquidationClosingPrice == Some(liquidationCandle.close)
            && ForLiquidation(store, liq, distance) ==
               EnterAfter(store, liq, liquidationCandle, Found(p.confirmationCandles, volume[p.confirmationCandles + 1]), distance)
  {
    var volume := VolumeCandles(store, liq);
    var liquidationCandle := LiquidationCandles(store, liq)[0];
    var confirmation := FirstConfirmation(liq.side, liquidationCandle, volume[2..], 0).value;
    EnteredShape(store, liq, liquidationCandle, confirmation, distance);
    assert volume[confirmation.index + 1] == volume[2..][confirmation.index - 1];
    forall j | 2 <= j < confirmation.index + 1 ensures !Confirms(liq.side, liquidationCandle, volume[j]) {
      assert volume[j] == volume[2..][j - 2];
    }
  }

  /** A created position is "reversed" and trades against the group's side. */
  lemma CreatedAgainst(store: seq<Candle>, liq: LiquidationGroup, distance: real)
    requires ForLiquidation(store, liq, distance).Created?
    ensures var p := ForLiquidation(store, liq, distance).position;
            p.side == Flip(liq.side) && p.strategyType == "reversed"
  {
    CreatedShape(store, liq, distance);
  }

  /** What the command did: the positions it wrote, in order, and whether it
      stopped on an IndexError. */
  datatype Report = Report(created: seq<Position>, crashed: bool)

  /** The report after the first n liquidation groups. */
  function Through(store: seq<Candle>, liqs: seq<LiquidationGroup>, distance: real, n: nat): (r: Report)
    requires n <= |liqs|
    ensures |r.created| <= n
  {
    if n == 0 then Report([], false)
    else
      var before := Through(store, liqs, distance, n - 1);
      if before.crashed then before
      else
        match ForLiquidation(store, liqs[n - 1], distance)
        case IndexError => Report(before.created, true)
        case Skipped => before
        case Created(p) => Report(before.created + [p], false)
  }

  /** Every written position comes from a liquidation group, against its side. */
  lemma {:induction false} CreatedOppose(store: seq<Candle>, liqs: seq<LiquidationGroup>, distance: real, n: nat)
    requires n <= |liqs|
    ensures forall p :: p in Through(store, liqs, distance, n).created ==>
              p.strategyType == "reversed" &&
              exists k :: 0 <= k < n && ForLiquidation(store, liqs[k], distance) == Created(p) && p.side == Flip(liqs[k].side)
  {
    if n > 0 {
      CreatedOppose(store, liqs, distance, n - 1);
      var before := Through(store, liqs, distance, n - 1);
      var outcome := ForLiquidation(store, liqs[n - 1], distance);
      if !before.crashed && outcome.Created? {
        CreatedAgainst(store, liqs[n - 1], distance);
        assert Through(store, liqs, distance, n).created == before.created + [outcome.position];
      } else {
        assert Through(store, liqs, distance, n).created == before.created;
      }
    }
  }

  /** Once crashed the command writes nothing more. */
  lemma {:induction false} CrashIsFinal(store: seq<Candle>, liqs: seq<LiquidationGroup>, distance: real, m: nat, n: nat)
    requires m <= n <= |liqs| && Through(store, liqs, distance, m).crashed
    ensures Through(store, liqs, distance, n) == Through(store, liqs, distance, m)
    decreases n - m
  {
    if m < n {
      CrashIsFinal(store, liqs, distance, m, n - 1);
    }
  }

  /** One liquidation group, as the loop body processes it. */
  method ProcessLiquidation(store: seq<Candle>, liq: LiquidationGroup, distance: real) returns (r: Outcome)
    ensures r == ForLiquidation(store, liq, distance)
  {
    var ma50 := Ma50(store, liq.time);
    if liq.totalAmount < MIN_AMOUNT {
      return Skipped;
    }
    var liquidationCandles := LiquidationCandles(store, liq);
    if liquidationCandles == [] {
      return Skipped;
    }
    var liquidationCandle := liquidationCandles[0];
    var volume := VolumeCandles(store, liq);
    if volume == [] {
      return Skipped;
    }
    if |volume| == 1 {
      return IndexError;
    }
    if !(volume[0].volume < volume[1].volume) {
      return Skipped;
    }
    var found := ScanConfirmation(liq.side, liquidationCandle, volume[2..]);
    if found.None? {
      return Skipped;
    }
    var confirmation := found.value;
    var band := confirmation.candle.close;
    var entry := ScanBreakout(EntryCandles(store, confirmation.candle), Upper(band, distance), Lower(band, distance));
    if entry.None? {
      return Skipped;
    }
    var b := entry.value;
    var side := if b.up then Long else Short;
    if side == liq.side {
      return Skipped;
    }
    r := Created(Entered(side, b, liq, confirmation.index, ma50, liquidationCandle));
  }

  /** One iteration of the command: process group i and record what it
      yields. */
  method Step(store: seq<Candle>, liqs: seq<LiquidationGroup>, distance: real, i: nat, created: seq<Position>)
    returns (next: Report)
    requires i < |liqs| && Through(store, liqs, distance, i) == Report(created, false)
    ensures next == Through(store, liqs, distance, i + 1)
  {
    var outcome := ProcessLiquidation(store, liqs[i], distance);
    if outcome.IndexError? {
      return Report(created, true);
    }
    if outcome.Created? {
      return Report(created + [outcome.position], false);
    }
    next := Report(created, false);
  }

  /** The command over the liquidation groups in time order; an IndexError
      ends it. */
  method Handle(store: seq<Candle>, liqs: seq<LiquidationGroup>, distance: real) returns (report: Report)
    ensures report == Through(store, liqs, distance, |liqs|)
  {
    report := Report([], false);
    var i := 0;
    while i < |liqs| && !report.crashed
      invariant 0 <= i <= |liqs|
      invariant report == Through(store, liqs, distance, i)
    {
      report := Step(store, liqs, distance, i, report.created);
      i := i + 1;
    }
    if report.crashed {
      CrashIsFinal(store, liqs, distance, i, |liqs|);
    }
  }
}
