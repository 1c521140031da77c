/** The RSI command: it walks the 5-minute candles in time order with a
    buffer of the 16 previous candles, computes a 14-period RSI on their
    closes, and on an overbought or oversold reading with one or two
    confirming candles looks for the first later close 0.5% away from the
    reference close to create a position. */
module RsiPositions {
  import opened Market
  import opened Scans

  const PERIOD: nat := 14
  const BUFFER: nat := 16

  /** The sum of the positive close-to-close changes among the last k of `cs`. */
  function Gains(cs: seq<Candle>, k: nat): (r: real)
    requires k < |cs|
    ensures r >= 0.0
  {
    if k == 0 then 0.0
    else
      var change := cs[|cs| - k].close - cs[|cs| - k - 1].close;
      Gains(cs, k - 1) + (if change > 0.0 then change else 0.0)
  }

  /** The sum of the sizes of the other changes among the last k. */
  function Losses(cs: seq<Candle>, k: nat): (r: real)
    requires k < |cs|
    ensures r >= 0.0
  {
    if k == 0 then 0.0
    else
      var change := cs[|cs| - k].close - cs[|cs| - k - 1].close;
      Losses(cs, k - 1) - (if change > 0.0 then 0.0 else change)
  }

  /** The RSI over the last `period` changes: 100 without losses, otherwise
      100 - 100 / (1 + gains/losses). */
  function Rsi(cs: seq<Candle>, period: nat): (r: real)
    requires period < |cs|
    ensures 0.0 <= r <= 100.0
    ensures r == 100.0 <==> Losses(cs, period) == 0.0
  {
    var gains := Gains(cs, period);
    var losses := Losses(cs, period);
    if losses == 0.0 then 100.0
    else
      var rs := gains / losses;
      assert 100.0 / (1.0 + rs) > 0.0 && 100.0 / (1.0 + rs) <= 100.0 by {
        assert 1.0 + rs >= 1.0;
      }
      100.0 - 100.0 / (1.0 + rs)
  }

  /** `calculate_rsi`: one pass over the last `period` changes, newest first,
      summing the rises and the falls. */
  method CalculateRsi(cs: seq<Candle>, period: nat) returns (rsi: real)
    requires period < |cs|
    ensures rsi == Rsi(cs, period)
  {
    var gains, losses := 0.0, 0.0;
    var i := 1;
    while i <= period
      invariant 1 <= i <= period + 1
      invariant gains == Gains(cs, i - 1) && losses == Losses(cs, i - 1)
    {
      var change := cs[|cs| - i].close - cs[|cs| - i - 1].close;
      if change > 0.0 {
        gains := gains + change;
      } else {
        losses := losses - change;
      }
      i := i + 1;
    }
    if losses == 0.0 {
      return 100.0;
    }
    var rs := gains / losses;
    rsi := 100.0 - 100.0 / (1.0 + rs);
  }

  /** Gains less losses telescope to the change from the first close read to the last. */
  lemma {:induction false} NetChange(cs: seq<Candle>, k: nat)
    requires k < |cs|
    ensures Gains(cs, k) - Losses(cs, k) == cs[|cs| - 1].close - cs[|cs| - 1 - k].close
  {
    if k > 0 {
      NetChange(cs, k - 1);
    }
  }

  /** The sums read only the last k + 1 closes. */
  lemma {:induction false} SumsReadLastCloses(a: seq<Candle>, b: seq<Candle>, k: nat)
    requires k < |a| && k < |b|
    requires forall j :: |a| - 1 - k <= j < |a| ==> a[j].close == b[j - |a| + |b|].close
    ensures Gains(a, k) == Gains(b, k) && Losses(a, k) == Losses(b, k)
  {
    if k > 0 {
      SumsReadLastCloses(a, b, k - 1);
      assert a[|a| - k - 1].close == b[|b| - k - 1].close;
    }
  }

  /** Two candle lists ending in the same period + 1 closes have the same RSI. */
  lemma RsiReadsLastCloses(a: seq<Candle>, b: seq<Candle>, period: nat)
    requires period < |a| && period < |b|
    requires forall j :: |a| - 1 - period <= j < |a| ==> a[j].close == b[j - |a| + |b|].close
    ensures Rsi(a, period) == Rsi(b, period)
  {
    SumsReadLastCloses(a, b, period);
  }

  /** A period without a falling close reads 100, and one with a falling close reads below 100. */
  lemma {:induction false} FallingCloseLowersRsi(cs: seq<Candle>, k: nat)
    requires k < |cs|
    ensures Losses(cs, k) == 0.0 <==> forall j :: |cs| - k <= j < |cs| ==> cs[j].close >= cs[j - 1].close
  {
    if k > 0 {
      FallingCloseLowersRsi(cs, k - 1);
      var change := cs[|cs| - k].close - cs[|cs| - k - 1].close;
      assert Losses(cs, k) == Losses(cs, k - 1) - (if change > 0.0 then 0.0 else change);
    }
  }

  /** The number of confirming candles of a signal: 1 when the last buffered
      candle already closed through the extreme of the one before it, else 2
      when the current candle does; none otherwise. */
  function Confirmation(rsi: real, rc: seq<Candle>, candle: Candle): (r: Option<int>)
    requires |rc| == BUFFER
    ensures r.Some? ==> r.value == 1 || r.value == 2
    ensures r.Some? ==> rsi >= 70.0 || rsi <= 30.0
  {
    var last, prev, third := rc[15], rc[14], rc[13];
    if (rsi >= 70.0 && last.close < prev.low && third.high < prev.high) ||
       (rsi <= 30.0 && last.close > prev.high && prev.low < third.low)
    then Some(1)
    else if (rsi >= 70.0 && candle.close < prev.low && prev.high > third.high) ||
            (rsi <= 30.0 && candle.close > prev.high && prev.low < third.low)
    then Some(2)
    else None
  }

  /** The position a breakout creates: LONG on an upward breakout, SHORT on a
      downward one, tagged rsi_live when it trades against the extreme (LONG
      when oversold, SHORT when overbought), started five minutes after the
      entering candle, and entered 0.01% better than the signal candle's close. */
  function Entered(b: Breakout, rsi: real, conf: int, liquidationTime: int, candle: Candle): (p: Position)
    ensures p.side == (if b.up then Long else Short)
    ensures p.strategyType == "rsi_live" || p.strategyType == "rsi_reversed"
    ensures p.strategyType == "rsi_live" <==> (b.up && rsi <= 30.0) || (!b.up && rsi >= 70.0)
    ensures p.start == b.candle.time + FIVE_MINUTES && p.liquidationTime == liquidationTime
    ensures p.confirmationCandles == conf && p.candlesBeforeEntry == b.index
    ensures p.entryPrice == Some(EntryPrice(p.side, candle.close))
    ensures p.amount == 0.0001 && p.liquidationAmount == 0.0 && p.nrOfLiquidations == 0
    ensures p.timeframe == "5m"
  {
    var side := if b.up then Long else Short;
    var live := if b.up then rsi <= 30.0 else rsi >= 70.0;
    Position(side, b.candle.time + FIVE_MINUTES, liquidationTime, if live then "rsi_live" else "rsi_reversed",
             0.0, 0, conf, b.index, 0.0001, Some(EntryPrice(side, candle.close)), None, None, FIVE_MINUTE_TIMEFRAME)
  }

  /** The reference close of a signal: the current candle's after two
      confirming candles, else the last buffered one's. */
  function Reference(rc: seq<Candle>, candle: Candle, conf: int): real
    requires |rc| == BUFFER
  {
    if conf == 2 then candle.close else rc[15].close
  }

  /** The candles searched for an entry: those after the confirmation. */
  function EntryCandles(rc: seq<Candle>, store: seq<Candle>, conf: int): seq<Candle>
    requires |rc| == BUFFER
  {
    From(store, rc[14].time + FIVE_MINUTES * conf + 1)
  }

  /** The position created on `candle` with `rc` as the buffer, if any: none
      for an RSI within [30, 70], otherwise entered on the first later close
      more than 0.5% above (tested first) or below the reference close. */
  function CandidateFrom(rc: seq<Candle>, candle: Candle, store: seq<Candle>): Option<Position>
    requires |rc| == BUFFER
  {
    var rsi := Rsi(rc, PERIOD);
    if 70.0 >= rsi >= 30.0 then None
    else
      match Confirmation(rsi, rc, candle)
      case None => None
      case Some(conf) =>
        var reference := Reference(rc, candle, conf);
        match FirstBreakout(EntryCandles(rc, store, conf), reference * 1.005, reference * 0.995, 0)
        case None => None
        case Some(b) => Some(Entered(b, rsi, conf, rc[14].time, candle))
  }

  /** The position created on candle i of the walk. */
  function CandidateAt(candles: seq<Candle>, store: seq<Candle>, i: nat): Option<Position>
    requires BUFFER <= i < |candles|
  {
    CandidateFrom(candles[i - BUFFER..i], candles[i], store)
  }

  /** A neutral reading creates nothing. */
  lemma NeutralRsiCreatesNothing(rc: seq<Candle>, candle: Candle, store: seq<Candle>)
    requires |rc| == BUFFER && 30.0 <= Rsi(rc, PERIOD) <= 70.0
    ensures CandidateFrom(rc, candle, store) == None
  {
  }

  /** What a created position looks like: an extreme reading confirmed by one
      or two candles, dated at the candle before the last buffered one, entered
      on the first candle after the confirmation whose close left the band
      around the reference close (every earlier one inside it), on the side of
      the breakout. */
  lemma CandidateShape(rc: seq<Candle>, candle: Candle, store: seq<Candle>)
    requires |rc| == BUFFER && CandidateFrom(rc, candle, store).Some?
    ensures var p := CandidateFrom(rc, candle, store).value;
            var rsi := Rsi(rc, PERIOD);
            var later := EntryCandles(rc, store, p.confirmationCandles);
            var reference := Reference(rc, candle, p.confirmationCandles);
            && (rsi < 30.0 || rsi > 70.0)
            && Confirmation(rsi, rc, candle) == Some(p.confirmationCandles)
            && p.liquidationTime == rc[14].time
            && 1 <= p.candlesBeforeEntry <= |later|
            && p.start == later[p.candlesBeforeEntry - 1].time + FIVE_MINUTES
            && (p.side == Long <==> later[p.candlesBeforeEntry - 1].close > reference * 1.005)
            && (p.side == Short ==> later[p.candlesBeforeEntry - 1].close < reference * 0.995)
            && (forall j :: 0 <= j < p.candlesBeforeEntry - 1 ==> reference * 0.995 <= later[j].close <= reference * 1.005)
            && (p.strategyType == "rsi_live" <==> (p.side == Long && rsi <= 30.0) || (p.side == Short && rsi >= 70.0))
  {
  }

  /** The positions created while walking `candles[..n]`: the first 16
      candles only fill the buffer, and every later candle creates at most
      one position. */
  function CreatedUpTo(candles: seq<Candle>, store: seq<Candle>, n: nat): (r: seq<Position>)
    requires n <= |candles|
    ensures |r| <= (if n <= BUFFER then 0 else n - BUFFER)
  {
    if n <= BUFFER then []
    else
      CreatedUpTo(candles, store, n - 1) + Listed(CandidateAt(candles, store, n - 1))
  }

  /** The buffer the walk holds before candle i: every earlier candle while
      it fills, afterwards the 16 candles before i and the one before them. */
  function Window(candles: seq<Candle>, i: nat): seq<Candle>
    requires i <= |candles|
  {
    candles[(if i <= BUFFER then 0 else i - BUFFER - 1)..i]
  }

  /** The buffer is still filling exactly while i < 16; appending candle i,
      after trimming to the last 16 once it is full, gives the next buffer. */
  lemma WindowStep(candles: seq<Candle>, i: nat)
    requires i < |candles|
    ensures |Window(candles, i)| < BUFFER <==> i < BUFFER
    ensures i < BUFFER ==> Window(candles, i) + [candles[i]] == Window(candles, i + 1)
    ensures BUFFER <= i ==> var w := Window(candles, i);
                            && w[|w| - BUFFER..] == candles[i - BUFFER..i]
                            && candles[i - BUFFER..i] + [candles[i]] == Window(candles, i + 1)
  {
    var w := Window(candles, i);
    if i < BUFFER {
      assert w == candles[..i] && Window(candles, i + 1) == candles[..i + 1];
      assert candles[..i] + [candles[i]] == candles[..i + 1];
    } else {
      var lo := if i == BUFFER then 0 else i - BUFFER - 1;
      assert w == candles[lo..i] && |w| == i - lo;
      assert w[|w| - BUFFER..] == candles[i - BUFFER..i];
      assert Window(candles, i + 1) == candles[i - BUFFER..i + 1];
      assert candles[i - BUFFER..i] + [candles[i]] == candles[i - BUFFER..i + 1];
    }
  }

  /** One step of the walk. */
  lemma CreatedStep(candles: seq<Candle>, store: seq<Candle>, i: nat)
    requires i < |candles|
    ensures i < BUFFER ==> CreatedUpTo(candles, store, i) == [] && CreatedUpTo(candles, store, i + 1) == []
    ensures BUFFER <= i ==> CreatedUpTo(candles, store, i + 1) ==
                            CreatedUpTo(candles, store, i) + Listed(CandidateFrom(candles[i - BUFFER..i], candles[i], store))
  {
  }

  /** One step of the walk past the buffer, given the trimmed buffer and what
      the signal created from it. */
  lemma CreatedStepAt(candles: seq<Candle>, store: seq<Candle>, i: nat, rc: seq<Candle>, position: Option<Position>)
    requires BUFFER <= i < |candles| && rc == candles[i - BUFFER..i]
    requires position == CandidateFrom(rc, candles[i], store)
    ensures CreatedUpTo(candles, store, i + 1) == CreatedUpTo(candles, store, i) + Listed(position)
  {
  }

  /** The body of the walk for one candle past the buffer: the signal test
      and, on a signal, the entry scan. */
  method Signal(rc: seq<Candle>, candle: Candle, store: seq<Candle>) returns (created: Option<Position>)
    requires |rc| == BUFFER
    ensures created == CandidateFrom(rc, candle, store)
  {
    var rsi := CalculateRsi(rc, PERIOD);
    if 70.0 >= rsi >= 30.0 {
      return None;
    }
    var conf := Confirmation(rsi, rc, candle);
    if conf.None? {
      return None;
    }
    var confirmationCandles := conf.value;
    var reference := Reference(rc, candle, confirmationCandles);
    var entry := ScanBreakout(EntryCandles(rc, store, confirmationCandles), reference * 1.005, reference * 0.995);
    if entry.None? {
      return None;
    }
    created := Some(Entered(entry.value, rsi, confirmationCandles, rc[14].time, candle));
  }

  /** The body of the walk for candle i while the buffer fills: the candle
      is only buffered. */
  method Fill(candles: seq<Candle>, store: seq<Candle>, i: nat, buffer: seq<Candle>, created: seq<Position>)
    returns (next: seq<Candle>, created': seq<Position>)
    requires i < |candles| && buffer == Window(candles, i) && created == CreatedUpTo(candles, store, i)
    requires |buffer| < BUFFER
    ensures next == Window(candles, i + 1) && created' == CreatedUpTo(candles, store, i + 1)
  {
    WindowStep(candles, i);
    CreatedStep(candles, store, i);
    next := buffer + [candles[i]];
    created' := created;
  }

  /** The body of the walk for candle i once the buffer is full: trim the
      buffer to its last 16 candles, run the signal on it, keep what it
      creates, and buffer the candle. */
  method Advance(candles: seq<Candle>, store: seq<Candle>, i: nat, buffer: seq<Candle>, created: seq<Position>)
    returns (next: seq<Candle>, created': seq<Position>)
    requires i < |candles| && buffer == Window(candles, i) && created == CreatedUpTo(candles, store, i)
    requires |buffer| >= BUFFER
    ensures next == Window(candles, i + 1) && created' == CreatedUpTo(candles, store, i + 1)
  {
    WindowStep(candles, i);
    var rsiCandles := buffer[|buffer| - BUFFER..];
    var position := Signal(rsiCandles, candles[i], store);
    CreatedStepAt(candles, store, i, rsiCandles, position);
    created' := created + Listed(position);
    next := rsiCandles + [candles[i]];
  }

  /** One iteration of the walk over candle i: buffer it while the buffer
      fills, run the signal once it is full. */
  method Step(candles: seq<Candle>, store: seq<Candle>, i: nat, buffer: seq<Candle>, created: seq<Position>)
    returns (next: seq<Candle>, created': seq<Position>)
    requires i < |candles| && buffer == Window(candles, i) && created == CreatedUpTo(candles, store, i)
    ensures next == Window(candles, i + 1) && created' == CreatedUpTo(candles, store, i + 1)
  {
    if |buffer| < BUFFER {
      next, created' := Fill(candles, store, i, buffer, created);
    } else {
      next, created' := Advance(candles, store, i, buffer, created);
    }
  }

  /** The command: `candles` is the queried window in time order, `store` the
      whole 5-minute candle table in time order. */
  method Handle(candles: seq<Candle>, store: seq<Candle>) returns (created: seq<Position>)
    ensures created == CreatedUpTo(candles, store, |candles|)
  {
    created := [];
    var rsiCandles: seq<Candle> := [];
    var i := 0;
    while i < |candles|
      invariant 0 <= i <= |candles|
      invariant rsiCandles == Window(candles, i)
      invariant created == CreatedUpTo(candles, store, i)
    {
      rsiCandles, created := Step(candles, store, i, rsiCandles, created);
      i := i + 1;
    }
  }
}
