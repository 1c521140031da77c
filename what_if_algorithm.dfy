/** The what-if view driven by the algorithm input files: positions are traded
    only in hours the input marks as tradable, sized by the input's weight, and
    replayed candle by candle against a trailing stop, a fixed stop-loss, a
    one-shot move of the stop past the entry, four partial take-profit tiers, a
    final take-profit and an optional RSI scale-out. */
module WhatIfAlgorithm {
  import opened Market
  import opened ViewHelpers
  import opened Equity
  import opened Stops
  import opened CoreHelpers

  /** Blofin's taker fee, charged on stop exits and RSI sales. */
  const MARKET_ORDER_FEE: real := 0.06 / 100.0
  /** Blofin's maker fee, charged on the opening, on tier closes and on the final take-profit. */
  const LIMIT_ORDER_FEE: real := 0.02 / 100.0

  /** A fee on closing or opening `size` at `price`. */
  function Fee(size: real, price: real, rate: real): (r: real)
    ensures size >= 0.0 && price >= 0.0 && rate >= 0.0 ==> r >= 0.0
    ensures size == 0.0 || price == 0.0 || rate == 0.0 ==> r == 0.0
  {
    var sp := size * price;
    assert size >= 0.0 && price >= 0.0 ==> sp >= 0.0;
    sp * rate
  }

  /** One partial take-profit tier: whether it is used, its distance as a
      percentage of the take-profit distance, and the percentage of the size it
      closes. */
  datatype Tier = Tier(use: bool, pct: real, amountPct: real)

  /** The form fields of the view (stop-loss and take-profit come from the input). */
  datatype Config = Config(
    useSlToEntry: bool, slToEntry: real,
    tp1: Tier, tp2: Tier, tp3: Tier, tp4: Tier,
    noOverlap: bool, useTrailing: bool, trailing: real,
    compound: bool, percentagePerTrade: real,
    useRsi: bool, rsiLower: real, rsiUpper: real, rsiSellPercentage: real)

  /** One row of an algorithm input file. */
  datatype InputRow = InputRow(hour: int, trade: bool, tpPercentage: real, weight: real)

  /** `(trade, tp, weight)` for one position. */
  datatype Weighting = Weighting(trade: bool, tp: real, weight: real)

  /** The input rows' verdict for `hour`: the last row of that hour wins, and
      without one the position is not traded. */
  function RowForHour(rows: seq<InputRow>, hour: int): Weighting
    decreases |rows|
  {
    if rows == [] then Weighting(false, 0.0, 0.0)
    else
      var n := |rows| - 1;
      if rows[n].hour == hour then Weighting(rows[n].trade, rows[n].tpPercentage, rows[n].weight)
      else RowForHour(rows[..n], hour)
  }

  /** RowForHour is the last row of the hour, or no trade when the hour has no row. */
  lemma {:induction false} RowForHourIsLastMatch(rows: seq<InputRow>, hour: int)
    ensures (forall i :: 0 <= i < |rows| ==> rows[i].hour != hour) ==> RowForHour(rows, hour) == Weighting(false, 0.0, 0.0)
    ensures forall j :: 0 <= j < |rows| && rows[j].hour == hour && (forall i :: j < i < |rows| ==> rows[i].hour != hour) ==>
      RowForHour(rows, hour) == Weighting(rows[j].trade, rows[j].tpPercentage, rows[j].weight)
    decreases |rows|
  {
    if rows != [] {
      var n := |rows| - 1;
      var prefix := rows[..n];
      RowForHourIsLastMatch(prefix, hour);
      assert forall i :: 0 <= i < n ==> prefix[i] == rows[i];
      if rows[n].hour != hour {
        assert RowForHour(rows, hour) == RowForHour(prefix, hour);
        forall j | 0 <= j < |rows| && rows[j].hour == hour && (forall i :: j < i < |rows| ==> rows[i].hour != hour)
          ensures RowForHour(rows, hour) == Weighting(rows[j].trade, rows[j].tpPercentage, rows[j].weight)
        {
          assert j < n && prefix[j] == rows[j];
          assert forall i :: j < i < n ==> prefix[i].hour != hour;
        }
      } else {
        forall j | 0 <= j < |rows| && rows[j].hour == hour && (forall i :: j < i < |rows| ==> rows[i].hour != hour)
          ensures j == n
        {
        }
      }
    }
  }

  /** The scan over the rows of the input file for the position's hour. */
  method ScanAlgorithmInput(rows: seq<InputRow>, hour: int) returns (w: Weighting)
    ensures w == RowForHour(rows, hour)
  {
    w := Weighting(false, 0.0, 0.0);
    var i := 0;
    while i < |rows|
      invariant 0 <= i <= |rows|
      invariant w == RowForHour(rows[..i], hour)
    {
      assert rows[..i + 1][..i] == rows[..i];
      if rows[i].hour == hour {
        w := Weighting(rows[i].trade, rows[i].tpPercentage, rows[i].weight);
      }
      i := i + 1;
    }
    assert rows[..|rows|] == rows;
  }

  /** The state of one open position during the replay. */
  datatype Book = Book(
    entry: real,         // position.entry_price
    size: real,          // position.amount, the size at opening
    amount: real,        // the size still open
    pnl: real,           // position.what_if_returns
    slPrice: real,       // position_sl_price, the trailing stop
    done1: bool, done2: bool, done3: bool, done4: bool,
    armed: bool,         // use_sl_to_entry: the stop may still be moved
    rsiCandles: seq<Candle>)

  /** The effect of one candle: the position stays open, or it closes at `closing`. */
  datatype Tick = Hold(book: Book, sl: real) | Exit(book: Book, sl: real, kind: ExitKind, closing: real)

  /** The stop-loss distance starts at 1 and is only ever negated. */
  predicate UnitSl(sl: real)
  {
    sl == 1.0 || sl == -1.0
  }

  /** Whether a candle reaches a tier: the high for the "long" direction, the low for "short". */
  predicate TierReached(dir: Side, entry: real, generalTp: real, tierPct: real, c: Candle)
  {
    if dir == Long then c.high >= entry + entry * (tierPct / 100.0 * generalTp / 100.0)
    else c.low <= entry - entry * (tierPct / 100.0 * generalTp / 100.0)
  }

  datatype TpResult = TpResult(finished: bool, amount: real, pnl: real)

  /** `process_tp`: a tier that is used, not yet finished and reached closes
      part of the position. In the "long" direction it closes tier% of the
      remaining amount; in the "short" direction tier% of the opening size. The
      fee is always charged on tier% of the opening size at the entry price. */
  function ProcessTp(tier: Tier, finished: bool, dir: Side, generalTp: real, entry: real, size: real,
                     pnl: real, c: Candle, amount: real): (r: TpResult)
    ensures !tier.use || finished ==> r == TpResult(finished, amount, pnl)
    ensures r.finished <==> finished || (tier.use && TierReached(dir, entry, generalTp, tier.pct, c))
    ensures r.finished && !finished && dir == Long ==>
      r.amount == amount * (1.0 - tier.amountPct / 100.0) &&
      (0.0 <= tier.amountPct <= 100.0 && amount >= 0.0 ==> 0.0 <= r.amount <= amount)
    ensures r.finished && !finished && dir == Short ==> r.amount == amount - size * tier.amountPct / 100.0
    ensures r.finished && !finished ==>
      r.pnl == pnl - Fee(size * tier.amountPct / 100.0, entry, LIMIT_ORDER_FEE) +
               (entry * (generalTp * tier.pct / 100.0) / 100.0) * ((if dir == Long then amount else size) * tier.amountPct / 100.0)
  {
    if tier.use && !finished && TierReached(dir, entry, generalTp, tier.pct, c) then
      var fees := Fee(size * tier.amountPct / 100.0, entry, LIMIT_ORDER_FEE);
      if dir == Long then
        var localReturns := (entry * (generalTp * tier.pct / 100.0) / 100.0) * (amount * tier.amountPct / 100.0);
        var left := amount - amount * tier.amountPct / 100.0;
        assert 0.0 <= tier.amountPct <= 100.0 && amount >= 0.0 ==> amount * tier.amountPct / 100.0 <= amount;
        TpResult(true, left, pnl - fees + localReturns)
      else
        var localReturns := (entry * (generalTp * tier.pct / 100.0) / 100.0) * (size * tier.amountPct / 100.0);
        TpResult(true, amount - size * tier.amountPct / 100.0, pnl - fees + localReturns)
    else
      TpResult(finished, amount, pnl)
  }

  /** Sum of the positive open-to-close changes of the first n candles. */
  function GainSum(w: seq<Candle>, n: nat): (r: real)
    requires n <= |w|
    ensures r >= 0.0
  {
    if n == 0 then 0.0
    else GainSum(w, n - 1) + (if w[n - 1].close - w[n - 1].open > 0.0 then w[n - 1].close - w[n - 1].open else 0.0)
  }

  /** Sum of the absolute non-positive open-to-close changes of the first n candles. */
  function LossSum(w: seq<Candle>, n: nat): (r: real)
    requires n <= |w|
    ensures r >= 0.0
  {
    if n == 0 then 0.0
    else LossSum(w, n - 1) + (if w[n - 1].close - w[n - 1].open > 0.0 then 0.0 else w[n - 1].open - w[n - 1].close)
  }

  /** The view's RSI over a 14-candle buffer, built from open-to-close changes. */
  function CandleRsi(w: seq<Candle>): real
    requires |w| == 14
  {
    var averageGain := GainSum(w, 14) / 14.0;
    var averageLoss := LossSum(w, 14) / 14.0;
    if averageLoss == 0.0 then 100.0
    else 100.0 - 100.0 / (1.0 + averageGain / averageLoss)
  }

  /** The RSI lies in [0, 100], and it is exactly 100 when no candle of the buffer lost. */
  lemma CandleRsiBounds(w: seq<Candle>)
    requires |w| == 14
    ensures 0.0 <= CandleRsi(w) <= 100.0
    ensures LossSum(w, 14) == 0.0 ==> CandleRsi(w) == 100.0
    ensures LossSum(w, 14) > 0.0 ==> CandleRsi(w) < 100.0
  {
    var averageGain := GainSum(w, 14) / 14.0;
    var averageLoss := LossSum(w, 14) / 14.0;
    if averageLoss != 0.0 {
      var rs := averageGain / averageLoss;
      assert rs >= 0.0;
      assert 100.0 / (1.0 + rs) <= 100.0;
      assert 100.0 / (1.0 + rs) > 0.0;
    }
  }

  /** The loop at the heart of the RSI scale-out. */
  method AlgorithmRsi(rsiCandles: seq<Candle>) returns (rsi: real)
    requires |rsiCandles| == 14
    ensures rsi == CandleRsi(rsiCandles)
  {
    var gains, losses := 0.0, 0.0;
    for i := 0 to 14
      invariant gains == GainSum(rsiCandles, i) && losses == LossSum(rsiCandles, i)
    {
      var change := rsiCandles[i].close - rsiCandles[i].open;
      if change > 0.0 {
        gains := gains + change;
      } else {
        losses := losses + (rsiCandles[i].open - rsiCandles[i].close);
      }
    }
    var averageGain := gains / 14.0;
    var averageLoss := losses / 14.0;
    if averageLoss == 0.0 {
      rsi := 100.0;
    } else {
      var rs := averageGain / averageLoss;
      rsi := 100.0 - 100.0 / (1.0 + rs);
    }
  }

  /** Selling part of the open amount at `price` outside the tiers. */
  function Sell(b: Book, side: Side, pct: real, price: real): Book
  {
    var sellAmount := b.amount * (pct / 100.0);
    var gain := if side == Long then (price - b.entry) * sellAmount else (b.entry - price) * sellAmount;
    b.(pnl := b.pnl - Fee(sellAmount, price, MARKET_ORDER_FEE) + gain, amount := b.amount - sellAmount)
  }

  /** Whether the RSI has to be computed on this candle: the buffer holds 14
      candles and the candle reached half of the take-profit distance. */
  predicate RsiDue(cfg: Config, tp: real, b: Book, c: Candle, buffered: nat)
  {
    cfg.useRsi && buffered >= 14 &&
    (c.low <= b.entry - b.entry * (50.0 / 100.0 * tp / 100.0) || c.high >= b.entry + b.entry * (50.0 / 100.0 * tp / 100.0))
  }

  /** The RSI scale-out after a candle that closed nothing: the candle joins
      the buffer and, when due, a LONG sells rsi_sell_percentage of the open
      amount when the RSI is at or above the upper bound, a SHORT when it is at
      or below the lower bound. */
  function RsiScaleOut(cfg: Config, tp: real, side: Side, b: Book, c: Candle): (r: Book)
    ensures r.entry == b.entry && r.size == b.size && r.slPrice == b.slPrice && r.armed == b.armed
    ensures r.done1 == b.done1 && r.done2 == b.done2 && r.done3 == b.done3 && r.done4 == b.done4
  {
    var buffer := b.rsiCandles + [c];
    if RsiDue(cfg, tp, b, c, |buffer|) then
      var window := buffer[|buffer| - 14..];
      var rsi := CandleRsi(window);
      var kept := b.(rsiCandles := window);
      if side == Long && rsi >= cfg.rsiUpper && kept.amount > 0.0 then Sell(kept, Long, cfg.rsiSellPercentage, c.close)
      else if side == Short && rsi <= cfg.rsiLower && kept.amount > 0.0 then Sell(kept, Short, cfg.rsiSellPercentage, c.close)
      else kept
    else
      b.(rsiCandles := buffer)
  }

  /** A LONG sells only when the RSI is due, at or above the upper bound and
      something is open; it then sells pct% of the open amount, which never
      drives the amount below 0 for pct in [0, 100]. */
  lemma RsiScaleOutLong(cfg: Config, tp: real, b: Book, c: Candle)
    ensures var r := RsiScaleOut(cfg, tp, Long, b, c);
            var buffer := b.rsiCandles + [c];
            r.amount != b.amount ==>
              RsiDue(cfg, tp, b, c, |buffer|) && CandleRsi(buffer[|buffer| - 14..]) >= cfg.rsiUpper && b.amount > 0.0 &&
              r.amount == b.amount - b.amount * (cfg.rsiSellPercentage / 100.0)
    ensures b.amount >= 0.0 && 0.0 <= cfg.rsiSellPercentage <= 100.0 ==> RsiScaleOut(cfg, tp, Long, b, c).amount >= 0.0
  {
    var sold := b.amount * (cfg.rsiSellPercentage / 100.0);
    if b.amount >= 0.0 && 0.0 <= cfg.rsiSellPercentage <= 100.0 {
      assert sold <= b.amount;
    }
  }

  /** The SHORT mirror image: a SHORT sells only when the RSI is due, at or
      below the lower bound and something is open, and then sells pct% of the
      open amount. */
  lemma RsiScaleOutShort(cfg: Config, tp: real, b: Book, c: Candle)
    ensures var r := RsiScaleOut(cfg, tp, Short, b, c);
            var buffer := b.rsiCandles + [c];
            r.amount != b.amount ==>
              RsiDue(cfg, tp, b, c, |buffer|) && CandleRsi(buffer[|buffer| - 14..]) <= cfg.rsiLower && b.amount > 0.0 &&
              r.amount == b.amount - b.amount * (cfg.rsiSellPercentage / 100.0)
    ensures b.amount >= 0.0 && 0.0 <= cfg.rsiSellPercentage <= 100.0 ==> RsiScaleOut(cfg, tp, Short, b, c).amount >= 0.0
  {
    var sold := b.amount * (cfg.rsiSellPercentage / 100.0);
    if b.amount >= 0.0 && 0.0 <= cfg.rsiSellPercentage <= 100.0 {
      assert sold <= b.amount;
    }
  }

  /** What a candle does to a position no stop closed: the one-shot move of
      the stop once the price runs slToEntry% of the take-profit distance
      past the entry, then the four tiers in order. Tier 1 is evaluated in the
      "long" direction on both sides, tiers 2 to 4 on the position's side. */
  function Tiers(cfg: Config, tp: real, side: Side, sl: real, b: Book, c: Candle): (t: Tick)
    ensures t.Hold? && t.book.entry == b.entry && t.book.size == b.size && t.book.slPrice == b.slPrice
  {
    var moved := if side == Long then c.high > b.entry + b.entry * (cfg.slToEntry / 100.0 * tp / 100.0)
                 else c.low < b.entry - b.entry * (cfg.slToEntry / 100.0 * tp / 100.0);
    var flip := b.armed && moved;
    var t1 := ProcessTp(cfg.tp1, b.done1, Long, tp, b.entry, b.size, b.pnl, c, b.amount);
    var t2 := ProcessTp(cfg.tp2, b.done2, side, tp, b.entry, b.size, t1.pnl, c, t1.amount);
    var t3 := ProcessTp(cfg.tp3, b.done3, side, tp, b.entry, b.size, t2.pnl, c, t2.amount);
    var t4 := ProcessTp(cfg.tp4, b.done4, side, tp, b.entry, b.size, t3.pnl, c, t3.amount);
    Hold(b.(armed := if flip then false else b.armed,
            done1 := t1.finished, done2 := t2.finished, done3 := t3.finished, done4 := t4.finished,
            amount := t4.amount, pnl := t4.pnl),
         if flip then -sl else sl)
  }

  /** The final take-profit of a position the stops left open: reached by
      the high at entry + tp% for a LONG, by the low at entry - tp% for a
      SHORT, closing what the tiers left as a limit order. The LONG's fee is
      figured on the entry price, the SHORT's on the closing price. */
  function FinalTakeProfit(side: Side, entry: real, tp: real, b: Book, sl: real, c: Candle): Tick
  {
    var closing := if side == Long then entry + entry * tp / 100.0 else entry - entry * tp / 100.0;
    if (if side == Long then c.high >= closing else c.low <= closing) then
      var fee := Fee(b.amount, if side == Long then entry else closing, LIMIT_ORDER_FEE);
      Exit(b.(pnl := b.pnl - fee + (entry * tp / 100.0) * b.amount), sl, TakeProfit, closing)
    else
      Hold(b, sl)
  }

  /** The rules of one candle for a LONG position, from the trailing stop to the final take-profit. */
  function StepLong(cfg: Config, tp: real, sl: real, b: Book, c: Candle): Tick
  {
    var b1 := if cfg.useTrailing then b.(slPrice := TrailLong(b.slPrice, b.entry, sl, cfg.trailing, c)) else b;
    if cfg.useTrailing && c.low <= b1.slPrice then
      var pnl := b1.pnl - Fee(b1.amount, b1.slPrice, MARKET_ORDER_FEE) - (b1.entry - b1.slPrice) * b1.amount;
      Exit(b1.(pnl := pnl), sl, TrailingStop, b1.slPrice)
    else if c.low <= b1.entry - b1.entry * sl / 100.0 then
      var closing := b1.entry - b1.entry * sl / 100.0;
      var pnl := b1.pnl - Fee(b1.amount, closing, MARKET_ORDER_FEE) - (b1.entry * sl / 100.0) * b1.amount;
      Exit(b1.(pnl := pnl), sl, StopLoss, closing)
    else
      var h := Tiers(cfg, tp, Long, sl, b1, c);
      FinalTakeProfit(Long, b.entry, tp, h.book, h.sl, c)
  }

  /** The rules of one candle for a SHORT position. Tier 1 is evaluated in the
      "long" direction, tiers 2 to 4 in the "short" one. */
  function StepShort(cfg: Config, tp: real, sl: real, b: Book, c: Candle): Tick
  {
    var b1 := if cfg.useTrailing then b.(slPrice := TrailShort(b.slPrice, b.entry, sl, cfg.trailing, c)) else b;
    if cfg.useTrailing && c.high >= b1.slPrice then
      var pnl := b1.pnl - Fee(b1.amount, b1.slPrice, MARKET_ORDER_FEE) - (b1.slPrice - b1.entry) * b1.amount;
      Exit(b1.(pnl := pnl), sl, TrailingStop, b1.slPrice)
    else if c.high >= b1.entry + b1.entry * sl / 100.0 then
      var closing := b1.entry + b1.entry * sl / 100.0;
      var pnl := b1.pnl - Fee(b1.amount, closing, MARKET_ORDER_FEE) - (b1.entry * sl / 100.0) * b1.amount;
      Exit(b1.(pnl := pnl), sl, StopLoss, closing)
    else
      var h := Tiers(cfg, tp, Short, sl, b1, c);
      FinalTakeProfit(Short, b.entry, tp, h.book, h.sl, c)
  }

  /** Everything one candle does to an open position: the side's rules and,
      when nothing closed, the RSI scale-out. */
  function Step(cfg: Config, tp: real, side: Side, sl: real, b: Book, c: Candle): (t: Tick)
    ensures UnitSl(sl) ==> UnitSl(t.sl)
  {
    var t := if side == Long then StepLong(cfg, tp, sl, b, c) else StepShort(cfg, tp, sl, b, c);
    if t.Exit? then t else Hold(RsiScaleOut(cfg, tp, side, t.book, c), t.sl)
  }

  /** With a trailing stop the fixed stop can never be the exit: the trailing
      price is never looser than the fixed stop, so it fires first. */
  lemma TrailingPreemptsStopLoss(cfg: Config, tp: real, side: Side, sl: real, b: Book, c: Candle)
    requires cfg.useTrailing
    ensures !(Step(cfg, tp, side, sl, b, c).Exit? && Step(cfg, tp, side, sl, b, c).kind == StopLoss)
  {
    if side == Long {
      LongTrailFirst(cfg, tp, sl, b, c);
    } else {
      ShortTrailFirst(cfg, tp, sl, b, c);
    }
  }

  /** For a LONG position a candle low at or under the fixed stop is also at
      or under the trailing price, so the trailing rule closes first. */
  lemma LongTrailFirst(cfg: Config, tp: real, sl: real, b: Book, c: Candle)
    requires cfg.useTrailing
    ensures var t := StepLong(cfg, tp, sl, b, c); !(t.Exit? && t.kind == StopLoss)
  {
    var trail := TrailLong(b.slPrice, b.entry, sl, cfg.trailing, c);
    if c.low <= b.entry - b.entry * sl / 100.0 {
      assert c.low <= trail;
      assert StepLong(cfg, tp, sl, b, c).kind == TrailingStop;
    }
  }

  /** The SHORT mirror image: a high at or over the fixed stop is at or over
      the trailing price. */
  lemma ShortTrailFirst(cfg: Config, tp: real, sl: real, b: Book, c: Candle)
    requires cfg.useTrailing
    ensures var t := StepShort(cfg, tp, sl, b, c); !(t.Exit? && t.kind == StopLoss)
  {
    var trail := TrailShort(b.slPrice, b.entry, sl, cfg.trailing, c);
    if c.high >= b.entry + b.entry * sl / 100.0 {
      assert c.high >= trail;
      assert StepShort(cfg, tp, sl, b, c).kind == TrailingStop;
    }
  }

  /** A stop exit happens before the stop move and the tiers: it leaves the open
      amount, the tier flags and the stop distance as the candle found them,
      and only a take-profit exit reaches the final take-profit rule. */
  lemma StopExitTouchesNoTier(cfg: Config, tp: real, side: Side, sl: real, b: Book, c: Candle)
    requires Step(cfg, tp, side, sl, b, c).Exit? && Step(cfg, tp, side, sl, b, c).kind != TakeProfit
    ensures var t := Step(cfg, tp, side, sl, b, c);
            t.sl == sl && t.book.amount == b.amount && t.book.armed == b.armed &&
            t.book.done1 == b.done1 && t.book.done2 == b.done2 && t.book.done3 == b.done3 && t.book.done4 == b.done4
  {
    if side == Long {
      LongStopExit(cfg, tp, sl, b, c);
    } else {
      ShortStopExit(cfg, tp, sl, b, c);
    }
  }

  /** A LONG's stop exits carry the book as the trailing move left it. */
  lemma LongStopExit(cfg: Config, tp: real, sl: real, b: Book, c: Candle)
    ensures var t := StepLong(cfg, tp, sl, b, c);
            t.Exit? && t.kind != TakeProfit ==>
              t.sl == sl && t.book.amount == b.amount && t.book.armed == b.armed &&
              t.book.done1 == b.done1 && t.book.done2 == b.done2 && t.book.done3 == b.done3 && t.book.done4 == b.done4
  {
  }

  /** A SHORT's stop exits carry the book as the trailing move left it. */
  lemma ShortStopExit(cfg: Config, tp: real, sl: real, b: Book, c: Candle)
    ensures var t := StepShort(cfg, tp, sl, b, c);
            t.Exit? && t.kind != TakeProfit ==>
              t.sl == sl && t.book.amount == b.amount && t.book.armed == b.armed &&
              t.book.done1 == b.done1 && t.book.done2 == b.done2 && t.book.done3 == b.done3 && t.book.done4 == b.done4
  {
  }

  /** A candle that closes the position closes it by the side's own rules;
      the RSI scale-out only runs on a candle that closed nothing. */
  lemma ExitBySideRules(cfg: Config, tp: real, side: Side, sl: real, b: Book, c: Candle)
    ensures var t := Step(cfg, tp, side, sl, b, c);
            t.Exit? ==> t == (if side == Long then StepLong(cfg, tp, sl, b, c) else StepShort(cfg, tp, sl, b, c))
  {
  }

  /** How a LONG stop closes: both stops sell the whole open amount at the
      stop price as a market order. */
  lemma LongStopFigures(cfg: Config, tp: real, sl: real, b: Book, c: Candle)
    ensures var t := StepLong(cfg, tp, sl, b, c);
            t.Exit? && t.kind == TrailingStop ==>
              cfg.useTrailing && t.closing == TrailLong(b.slPrice, b.entry, sl, cfg.trailing, c) && c.low <= t.closing &&
              t.book.pnl == b.pnl - Fee(b.amount, t.closing, MARKET_ORDER_FEE) - (b.entry - t.closing) * b.amount
    ensures var t := StepLong(cfg, tp, sl, b, c);
            t.Exit? && t.kind == StopLoss ==>
              t.closing == b.entry - b.entry * sl / 100.0 && c.low <= t.closing &&
              t.book.pnl == b.pnl - Fee(b.amount, t.closing, MARKET_ORDER_FEE) - (b.entry * sl / 100.0) * b.amount
  {
  }

  /** A LONG take-profit exit is the final take-profit applied to what the
      trailing move and the tiers left open. */
  lemma LongTakeProfitFigures(cfg: Config, tp: real, sl: real, b: Book, c: Candle)
    ensures var t := StepLong(cfg, tp, sl, b, c);
            var b1 := if cfg.useTrailing then b.(slPrice := TrailLong(b.slPrice, b.entry, sl, cfg.trailing, c)) else b;
            var h := Tiers(cfg, tp, Long, sl, b1, c);
            t.Exit? && t.kind == TakeProfit ==> t == FinalTakeProfit(Long, b.entry, tp, h.book, h.sl, c)
  {
  }

  /** How a SHORT stop closes: the LONG rules mirrored, a market order at the stop price. */
  lemma ShortStopFigures(cfg: Config, tp: real, sl: real, b: Book, c: Candle)
    ensures var t := StepShort(cfg, tp, sl, b, c);
            t.Exit? && t.kind == TrailingStop ==>
              cfg.useTrailing && t.closing == TrailShort(b.slPrice, b.entry, sl, cfg.trailing, c) && c.high >= t.closing &&
              t.book.pnl == b.pnl - Fee(b.amount, t.closing, MARKET_ORDER_FEE) - (t.closing - b.entry) * b.amount
    ensures var t := StepShort(cfg, tp, sl, b, c);
            t.Exit? && t.kind == StopLoss ==>
              t.closing == b.entry + b.entry * sl / 100.0 && c.high >= t.closing &&
              t.book.pnl == b.pnl - Fee(b.amount, t.closing, MARKET_ORDER_FEE) - (b.entry * sl / 100.0) * b.amount
  {
  }

  /** A SHORT take-profit exit is the final take-profit applied to what the
      trailing move and the tiers left open. */
  lemma ShortTakeProfitFigures(cfg: Config, tp: real, sl: real, b: Book, c: Candle)
    ensures var t := StepShort(cfg, tp, sl, b, c);
            var b1 := if cfg.useTrailing then b.(slPrice := TrailShort(b.slPrice, b.entry, sl, cfg.trailing, c)) else b;
            var h := Tiers(cfg, tp, Short, sl, b1, c);
            t.Exit? && t.kind == TakeProfit ==> t == FinalTakeProfit(Short, b.entry, tp, h.book, h.sl, c)
  {
  }

  /** The figures of the final take-profit: it closes at entry + tp% (LONG,
      reached by the high) or entry - tp% (SHORT, reached by the low),
      gains tp% of the entry on the open amount and pays the limit fee on
      the amount at the entry (LONG) or the closing price (SHORT); not
      reached, the position stays open unchanged. */
  lemma TakeProfitFigures(side: Side, entry: real, tp: real, b: Book, sl: real, c: Candle)
    ensures var t := FinalTakeProfit(side, entry, tp, b, sl, c);
            t.Exit? ==>
              t.kind == TakeProfit && t.sl == sl &&
              t.closing == (if side == Long then entry + entry * tp / 100.0 else entry - entry * tp / 100.0) &&
              (if side == Long then c.high >= t.closing else c.low <= t.closing) &&
              t.book == b.(pnl := b.pnl - Fee(b.amount, if side == Long then entry else t.closing, LIMIT_ORDER_FEE) +
                                  (entry * tp / 100.0) * b.amount)
    ensures var t := FinalTakeProfit(side, entry, tp, b, sl, c);
            !t.Exit? ==> t == Hold(b, sl) && (if side == Long then c.high < entry + entry * tp / 100.0 else c.low > entry - entry * tp / 100.0)
  {
  }

  /** The trailing stop ratchets: it never falls for a LONG and never rises for a SHORT. */
  lemma StepRatchets(cfg: Config, tp: real, side: Side, sl: real, b: Book, c: Candle)
    ensures side == Long ==> Step(cfg, tp, side, sl, b, c).book.slPrice >= b.slPrice
    ensures side == Short ==> Step(cfg, tp, side, sl, b, c).book.slPrice <= b.slPrice
  {
    if side == Long {
      LongRatchets(cfg, tp, sl, b, c);
    } else {
      ShortRatchets(cfg, tp, sl, b, c);
    }
  }

  /** A LONG's own rules never lower its trailing stop. */
  lemma LongRatchets(cfg: Config, tp: real, sl: real, b: Book, c: Candle)
    ensures StepLong(cfg, tp, sl, b, c).book.slPrice >= b.slPrice
  {
    var b1 := if cfg.useTrailing then b.(slPrice := TrailLong(b.slPrice, b.entry, sl, cfg.trailing, c)) else b;
    assert b1.slPrice >= b.slPrice;
    assert StepLong(cfg, tp, sl, b, c).book.slPrice == b1.slPrice;
  }

  /** A SHORT's own rules never raise its trailing stop. */
  lemma ShortRatchets(cfg: Config, tp: real, sl: real, b: Book, c: Candle)
    ensures StepShort(cfg, tp, sl, b, c).book.slPrice <= b.slPrice
  {
    var b1 := if cfg.useTrailing then b.(slPrice := TrailShort(b.slPrice, b.entry, sl, cfg.trailing, c)) else b;
    assert b1.slPrice <= b.slPrice;
    assert StepShort(cfg, tp, sl, b, c).book.slPrice == b1.slPrice;
  }

  /** One-shot flags only ever go from unset to set within a candle, and the
      stop distance changes only by the one flip that disarms the move. */
  lemma StepOneShot(cfg: Config, tp: real, side: Side, sl: real, b: Book, c: Candle)
    ensures OneShot(sl, b, Step(cfg, tp, side, sl, b, c))
  {
    if side == Long {
      LongOneShot(cfg, tp, sl, b, c);
    } else {
      ShortOneShot(cfg, tp, sl, b, c);
    }
  }

  /** The one-shot rule for one candle: flags only rise, and the stop distance
      changes only by the flip that disarms the move. */
  predicate OneShot(sl: real, b: Book, t: Tick)
  {
    (b.done1 ==> t.book.done1) && (b.done2 ==> t.book.done2) &&
    (b.done3 ==> t.book.done3) && (b.done4 ==> t.book.done4) &&
    (t.sl == sl || (t.sl == -sl && b.armed && !t.book.armed)) && (!b.armed ==> !t.book.armed)
  }

  /** The one-shot rule for a LONG's own rules, before the RSI scale-out. */
  lemma LongOneShot(cfg: Config, tp: real, sl: real, b: Book, c: Candle)
    ensures OneShot(sl, b, StepLong(cfg, tp, sl, b, c))
  {
  }

  /** The one-shot rule for a SHORT's own rules, before the RSI scale-out. */
  lemma ShortOneShot(cfg: Config, tp: real, sl: real, b: Book, c: Candle)
    ensures OneShot(sl, b, StepShort(cfg, tp, sl, b, c))
  {
  }

  /** Where a position's replay ended: it is still open, or it closed at a
      price on the candle of the given time. */
  datatype Closing = Closing(kind: ExitKind, closing: real, time: int)
  datatype Replayed = Replayed(sl: real, book: Book, exit: Option<Closing>)

  /** The candles of one position, in order, until the first exit. */
  function Replay(cfg: Config, tp: real, side: Side, sl: real, b: Book, cs: seq<Candle>): (r: Replayed)
    ensures UnitSl(sl) ==> UnitSl(r.sl)
    decreases |cs|
  {
    if cs == [] then Replayed(sl, b, None)
    else
      match Step(cfg, tp, side, sl, b, cs[0])
      case Exit(b1, sl1, kind, closing) => Replayed(sl1, b1, Some(Closing(kind, closing, cs[0].time)))
      case Hold(b1, sl1) => Replay(cfg, tp, side, sl1, b1, cs[1..])
  }

  /** A terminal exit ends the replay: candles after it change nothing. */
  lemma {:induction false} ExitIgnoresLaterCandles(cfg: Config, tp: real, side: Side, sl: real, b: Book, cs: seq<Candle>, rest: seq<Candle>)
    requires Replay(cfg, tp, side, sl, b, cs).exit.Some?
    ensures Replay(cfg, tp, side, sl, b, cs + rest) == Replay(cfg, tp, side, sl, b, cs)
    decreases |cs|
  {
    assert (cs + rest)[0] == cs[0];
    match Step(cfg, tp, side, sl, b, cs[0])
    case Exit(_, _, _, _) =>
    case Hold(b1, sl1) =>
      assert (cs + rest)[1..] == cs[1..] + rest;
      ExitIgnoresLaterCandles(cfg, tp, side, sl1, b1, cs[1..], rest);
  }

  /** Over a whole replay the stop distance is flipped at most once, and not at
      all when the move is not armed; the trailing stop ratchets throughout. */
  lemma {:induction false} ReplayFlipsAtMostOnce(cfg: Config, tp: real, side: Side, sl: real, b: Book, cs: seq<Candle>)
    ensures var r := Replay(cfg, tp, side, sl, b, cs);
            (r.sl == sl || (r.sl == -sl && b.armed && !r.book.armed)) &&
            (!b.armed ==> r.sl == sl && !r.book.armed) &&
            (side == Long ==> r.book.slPrice >= b.slPrice) &&
            (side == Short ==> r.book.slPrice <= b.slPrice)
    decreases |cs|
  {
    if cs != [] {
      StepOneShot(cfg, tp, side, sl, b, cs[0]);
      StepRatchets(cfg, tp, side, sl, b, cs[0]);
      match Step(cfg, tp, side, sl, b, cs[0])
      case Exit(_, _, _, _) =>
      case Hold(b1, sl1) =>
        ReplayFlipsAtMostOnce(cfg, tp, side, sl1, b1, cs[1..]);
    }
  }

  /** Over a whole replay each tier flag only goes from unset to set, so a tier
      that starts unset fires on at most one candle. */
  lemma {:induction false} ReplayTierFlagsOnlyRise(cfg: Config, tp: real, side: Side, sl: real, b: Book, cs: seq<Candle>)
    ensures var r := Replay(cfg, tp, side, sl, b, cs);
            (b.done1 ==> r.book.done1) && (b.done2 ==> r.book.done2) &&
            (b.done3 ==> r.book.done3) && (b.done4 ==> r.book.done4)
    decreases |cs|
  {
    if cs != [] {
      StepOneShot(cfg, tp, side, sl, b, cs[0]);
      match Step(cfg, tp, side, sl, b, cs[0])
      case Exit(_, _, _, _) =>
      case Hold(b1, sl1) =>
        ReplayTierFlagsOnlyRise(cfg, tp, side, sl1, b1, cs[1..]);
    }
  }

  /** The candle loop of one position, stopping at the first exit. */
  method ReplayCandles(cfg: Config, tp: real, side: Side, sl0: real, b0: Book, ohlcvs: seq<Candle>) returns (r: Replayed)
    ensures r == Replay(cfg, tp, side, sl0, b0, ohlcvs)
  {
    var sl, book := sl0, b0;
    var i := 0;
    while i < |ohlcvs|
      invariant 0 <= i <= |ohlcvs|
      invariant Replay(cfg, tp, side, sl0, b0, ohlcvs) == Replay(cfg, tp, side, sl, book, ohlcvs[i..])
    {
      var candle := ohlcvs[i];
      assert ohlcvs[i..][0] == candle && ohlcvs[i..][1..] == ohlcvs[i + 1..];
      var tick := Step(cfg, tp, side, sl, book, candle);
      if tick.Exit? {
        return Replayed(tick.sl, tick.book, Some(Closing(tick.kind, tick.closing, candle.time)));
      }
      sl, book := tick.sl, tick.book;
      i := i + 1;
    }
    r := Replayed(sl, book, None);
  }

  /** The state of a whole run. */
  datatype RunState = RunState(
    total: real, wins: nat, losses: nat, streak: Streak, sl: real,
    lastLong: Option<int>, lastShort: Option<int>,
    trades: seq<Trade>, totals: seq<real>, dates: seq<int>)

  /** A run starts with INITIAL_CAPITAL, no trades, no streak and a stop distance of 1. */
  const Start: RunState := RunState(INITIAL_CAPITAL, 0, 0, NoStreak, 1.0, None, None, [], [], [])

  /** `process_position_what_if`: a closed position counts as a win when its
      returns are positive and as a loss otherwise. */
  function Recorded(s: RunState, t: Trade): RunState
  {
    var win := t.pnl > 0.0;
    s.(total := s.total + t.pnl,
       wins := if win then s.wins + 1 else s.wins,
       losses := if win then s.losses else s.losses + 1,
       streak := if win then AfterWin(s.streak) else AfterLoss(s.streak),
       trades := [t] + s.trades,
       totals := s.totals + [s.total + t.pnl],
       dates := s.dates + [t.position.start])
  }

  /** The imperative bookkeeping of a closed position. */
  method ProcessPositionWhatIf(wins: nat, losses: nat, winStreak: WinStreak, totalReturns: real, t: Trade, ledger: Ledger)
    returns (wins': nat, losses': nat, totalReturns': real)
    modifies winStreak, ledger
    ensures wins' + losses' == wins + losses + 1
    ensures wins' == (if t.pnl > 0.0 then wins + 1 else wins)
    ensures totalReturns' == totalReturns + t.pnl
    ensures winStreak.Value() == (if t.pnl > 0.0 then AfterWin(old(winStreak.Value())) else AfterLoss(old(winStreak.Value())))
    ensures ledger.objectList == [t] + old(ledger.objectList)
    ensures ledger.totals == old(ledger.totals) + [totalReturns']
    ensures ledger.dates == old(ledger.dates) + [t.position.start]
  {
    wins', losses' := wins, losses;
    if t.pnl > 0.0 {
      wins' := wins' + 1;
      winStreak.RecordWin();
    } else {
      losses' := losses' + 1;
      winStreak.RecordLoss();
    }
    totalReturns' := totalReturns + t.pnl;
    ledger.Log(t, totalReturns');
  }

  /** The last candle time recorded for a side. */
  function LastFor(s: RunState, side: Side): Option<int>
  {
    if side == Long then s.lastLong else s.lastShort
  }

  /** Opening a position on its first candle. */
  function Opening(cfg: Config, w: Weighting, side: Side, total: real, sl: real, first: Candle): (b: Book)
    requires sl != 0.0 && first.open != 0.0
    ensures b.amount == b.size && b.entry == EntryPrice(side, first.open)
    ensures !b.done1 && !b.done2 && !b.done3 && !b.done4 && b.armed == cfg.useSlToEntry && b.rsiCandles == []
    ensures b.size * sl * b.entry == (if cfg.compound then total else INITIAL_CAPITAL) * cfg.percentagePerTrade * w.weight
    ensures b.pnl == -Fee(b.size, b.entry, LIMIT_ORDER_FEE)
  {
    var entry := EntryPrice(side, first.open);
    var basis := if cfg.compound then total else INITIAL_CAPITAL;
    var size := basis / sl / entry * cfg.percentagePerTrade * w.weight;
    assert size * sl * entry == basis * cfg.percentagePerTrade * w.weight by {
      assert basis / sl / entry * sl * entry == basis;
    }
    var slPrice := if side == Long then entry * (1.0 - cfg.trailing / 100.0) else entry * (1.0 + cfg.trailing / 100.0);
    Book(entry, size, size, 0.0 - Fee(size, entry, LIMIT_ORDER_FEE), slPrice,
         false, false, false, false, cfg.useSlToEntry, [])
  }

  /** The stop distance is shared by all positions of a run, so a flip left
      behind by one position makes the next one's size negative. */
  lemma FlippedStopNegatesSize(cfg: Config, w: Weighting, side: Side, total: real, first: Candle)
    requires first.open > 0.0 && cfg.percentagePerTrade > 0.0 && w.weight > 0.0
    requires (if cfg.compound then total else INITIAL_CAPITAL) > 0.0
    ensures Opening(cfg, w, side, total, -1.0, first).size < 0.0
    ensures Opening(cfg, w, side, total, 1.0, first).size > 0.0
  {
    var b := Opening(cfg, w, side, total, -1.0, first);
    var basis := if cfg.compound then total else INITIAL_CAPITAL;
    assert basis * cfg.percentagePerTrade * w.weight > 0.0;
    assert b.size * -1.0 * b.entry > 0.0;
  }

  /** Why a run breaks off. */
  datatype Failure =
    | NoFirstCandle    // the overlap check reads the first candle of an empty window
    | ZeroEntryPrice   // the size divides by an entry price of 0

  /** The result of handling positions: the run goes on, or it breaks off. */
  datatype Outcome = Continue(s: RunState) | Crash(failure: Failure)

  /** A position's 5-minute candles: from its start with the seconds dropped,
      for 28 days. */
  function Window(store: seq<Candle>, p: Position): seq<Candle>
  {
    Between(store, p.start - p.start % 60, p.start + 28 * DAY)
  }

  /** One iteration of the position loop. */
  function PositionStep(cfg: Config, rows: seq<InputRow>, store: seq<Candle>, s: RunState, p: Position): (o: Outcome)
    requires UnitSl(s.sl)
    ensures o.Continue? ==> UnitSl(o.s.sl)
  {
    var w := RowForHour(rows, HourOf(p.liquidationTime));
    var last := LastFor(s, p.side);
    var ohlcvs := Window(store, p);
    if !w.trade then Continue(s)
    else if ohlcvs == [] then (if cfg.noOverlap && last.Some? then Crash(NoFirstCandle) else Continue(s))
    else if ohlcvs[0].open == 0.0 then Crash(ZeroEntryPrice)
    else if cfg.noOverlap && last.Some? && ohlcvs[0].time < last.value then Continue(s)
    else
      var b := Opening(cfg, w, p.side, s.total, s.sl, ohlcvs[0]);
      Continue(Settle(s, p, b, Replay(cfg, w.tp, p.side, s.sl, b, ohlcvs)))
  }

  /** The run after a position's replay: the stop distance it left behind and,
      when it closed, its trade and its exit time for its side. */
  function Settle(s: RunState, p: Position, b: Book, r: Replayed): RunState
  {
    var s1 := s.(sl := r.sl);
    match r.exit
    case None => s1
    case Some(cl) =>
      var s2 := Recorded(s1, Trade(p, b.entry, b.size, cl.closing, r.book.pnl));
      if p.side == Long then s2.(lastLong := Some(cl.time)) else s2.(lastShort := Some(cl.time))
  }

  /** Overlap suppression: a position whose first candle precedes the last
      candle recorded for its side is skipped and changes nothing. */
  lemma OverlapSkipsPosition(cfg: Config, rows: seq<InputRow>, store: seq<Candle>, s: RunState, p: Position)
    requires UnitSl(s.sl) && Window(store, p) != [] && Window(store, p)[0].open != 0.0
    requires cfg.noOverlap && LastFor(s, p.side).Some? && Window(store, p)[0].time < LastFor(s, p.side).value
    ensures PositionStep(cfg, rows, store, s, p) == Continue(s)
  {
  }

  /** A position either changes nothing but the stop distance, or closes: then
      it adds exactly one trade, its returns to the total, one total and one
      date, and records its exit candle's time for its side only. */
  ghost predicate StepEffect(s: RunState, s': RunState, p: Position)
  {
    s' == s.(sl := s'.sl) ||
    (exists t: Trade, time: int :: t.position == p &&
      s'.wins + s'.losses == s.wins + s.losses + 1 &&
      s'.total == s.total + t.pnl && s'.trades == [t] + s.trades &&
      s'.totals == s.totals + [s'.total] && s'.dates == s.dates + [p.start] &&
      LastFor(s', p.side) == Some(time) && LastFor(s', Flip(p.side)) == LastFor(s, Flip(p.side)))
  }

  /** Settling a replay has that effect. */
  lemma SettleEffect(s: RunState, p: Position, b: Book, r: Replayed)
    ensures StepEffect(s, Settle(s, p, b, r), p)
  {
    if r.exit.Some? {
      var t := Trade(p, b.entry, b.size, r.exit.value.closing, r.book.pnl);
      var s' := Settle(s, p, b, r);
      assert s'.total == s.total + t.pnl && LastFor(s', p.side) == Some(r.exit.value.time);
    }
  }

  /** So has every position the loop does not break off on. */
  lemma PositionStepEffect(cfg: Config, rows: seq<InputRow>, store: seq<Candle>, s: RunState, p: Position)
    requires UnitSl(s.sl) && PositionStep(cfg, rows, store, s, p).Continue?
    ensures StepEffect(s, PositionStep(cfg, rows, store, s, p).s, p)
  {
    var w := RowForHour(rows, HourOf(p.liquidationTime));
    var last := LastFor(s, p.side);
    var ohlcvs := Window(store, p);
    if w.trade && ohlcvs != [] && ohlcvs[0].open != 0.0 && !(cfg.noOverlap && last.Some? && ohlcvs[0].time < last.value) {
      var b := Opening(cfg, w, p.side, s.total, s.sl, ohlcvs[0]);
      SettleEffect(s, p, b, Replay(cfg, w.tp, p.side, s.sl, b, ohlcvs));
    }
  }

  /** The whole position loop, in order, until it breaks off. */
  function RunFrom(cfg: Config, input: (int, string) -> seq<InputRow>, store: seq<Candle>, s: RunState, ps: seq<Position>): Outcome
    requires UnitSl(s.sl)
    decreases |ps|
  {
    if ps == [] then Continue(s)
    else
      match PositionStep(cfg, input(DayOf(ps[0].liquidationTime), ps[0].strategyType), store, s, ps[0])
      case Crash(f) => Crash(f)
      case Continue(s1) => RunFrom(cfg, input, store, s1, ps[1..])
  }

  /** The run ledger seen as a run state. */
  function Snapshot(total: real, wins: nat, losses: nat, winStreak: WinStreak, sl: real,
                    lastLong: Option<int>, lastShort: Option<int>, ledger: Ledger): RunState
    reads winStreak, ledger
  {
    RunState(total, wins, losses, winStreak.Value(), sl, lastLong, lastShort, ledger.objectList, ledger.totals, ledger.dates)
  }

  /** One iteration of the position loop on the view's variables and objects. */
  method HandlePosition(cfg: Config, rows: seq<InputRow>, store: seq<Candle>, position: Position,
                        ledger: Ledger, winStreak: WinStreak, totalReturns: real, wins: nat, losses: nat, sl: real,
                        lastLong: Option<int>, lastShort: Option<int>)
    returns (failure: Option<Failure>, totalReturns': real, wins': nat, losses': nat, sl': real,
             lastLong': Option<int>, lastShort': Option<int>)
    requires UnitSl(sl)
    modifies ledger, winStreak
    ensures var o := PositionStep(cfg, rows, store, old(Snapshot(totalReturns, wins, losses, winStreak, sl, lastLong, lastShort, ledger)), position);
            if failure.Some? then o == Crash(failure.value)
            else o == Continue(Snapshot(totalReturns', wins', losses', winStreak, sl', lastLong', lastShort', ledger))
  {
    failure := None;
    totalReturns', wins', losses', sl', lastLong', lastShort' := totalReturns, wins, losses, sl, lastLong, lastShort;
    var w := ScanAlgorithmInput(rows, HourOf(position.liquidationTime));
    var last := if position.side == Long then lastLong else lastShort;
    if !w.trade {
      return;
    }
    var ohlcvs := Window(store, position);
    if ohlcvs == [] {
      if cfg.noOverlap && last.Some? {
        failure := Some(NoFirstCandle);
      }
      return;
    }
    if ohlcvs[0].open == 0.0 {
      failure := Some(ZeroEntryPrice);
      return;
    }
    var book := Opening(cfg, w, position.side, totalReturns, sl, ohlcvs[0]);
    if cfg.noOverlap && last.Some? && ohlcvs[0].time < last.value {
      return;
    }
    var r := ReplayCandles(cfg, w.tp, position.side, sl, book, ohlcvs);
    totalReturns', wins', losses', sl', lastLong', lastShort' :=
      SettlePosition(position, book, r, ledger, winStreak, totalReturns, wins, losses, sl, lastLong, lastShort);
  }

  /** The end of a position's candle loop: the stop distance it leaves behind
      and, when it closed, its bookkeeping and the exit time for its side. */
  method SettlePosition(position: Position, book: Book, r: Replayed, ledger: Ledger, winStreak: WinStreak,
                        totalReturns: real, wins: nat, losses: nat, sl: real, lastLong: Option<int>, lastShort: Option<int>)
    returns (totalReturns': real, wins': nat, losses': nat, sl': real, lastLong': Option<int>, lastShort': Option<int>)
    modifies ledger, winStreak
    ensures Snapshot(totalReturns', wins', losses', winStreak, sl', lastLong', lastShort', ledger) ==
            Settle(old(Snapshot(totalReturns, wins, losses, winStreak, sl, lastLong, lastShort, ledger)), position, book, r)
  {
    totalReturns', wins', losses', sl', lastLong', lastShort' := totalReturns, wins, losses, r.sl, lastLong, lastShort;
    if r.exit.Some? {
      var t := Trade(position, book.entry, book.size, r.exit.value.closing, r.book.pnl);
      wins', losses', totalReturns' := ProcessPositionWhatIf(wins, losses, winStreak, totalReturns, t, ledger);
      if position.side == Long {
        lastLong' := Some(r.exit.value.time);
      } else {
        lastShort' := Some(r.exit.value.time);
      }
    }
  }

  /** The form fields that select the view's positions. An empty list, a
      missing date and a missing or 0 amount are falsy in Python and filter
      nothing. */
  datatype Selector = Selector(candlesBeforeEntryNot: set<int>, liveConfirmationCandles: set<int>,
                               reversedConfirmationCandles: set<int>, strategyTypes: set<string>,
                               startGte: Option<int>, startLt: Option<int>,
                               minLiquidation: Option<real>, maxLiquidation: Option<real>)

  /** The liquidation hours the view always trades: 2 to 4 am and 2 to 4 pm. */
  const TRADING_HOURS: set<int> := {2, 3, 4, 14, 15, 16}

  /** A position the view selects: not of an excluded candles-before-entry
      count, live or reversed with an allowed confirmation count, on 5-minute
      candles, liquidated Monday to Friday in a trading hour, and inside every
      bound the form sets; the date bounds apply to the liquidation time. */
  predicate Chosen(sel: Selector, p: Position)
  {
    && p.candlesBeforeEntry !in sel.candlesBeforeEntryNot
    && ((p.strategyType == "live" && p.confirmationCandles in sel.liveConfirmationCandles) ||
        (p.strategyType == "reversed" && p.confirmationCandles in sel.reversedConfirmationCandles))
    && p.timeframe == FIVE_MINUTE_TIMEFRAME
    && PythonWeekdayToDjangoWeekday(WeekdayOf(p.liquidationTime)) in {2, 3, 4, 5, 6}
    && HourOf(p.liquidationTime) in TRADING_HOURS
    && (sel.strategyTypes == {} || p.strategyType in sel.strategyTypes)
    && (sel.startGte.None? || p.liquidationTime >= sel.startGte.value)
    && (sel.startLt.None? || p.liquidationTime < sel.startLt.value)
    && LiquidationWithin(sel.minLiquidation, sel.maxLiquidation, p)
  }

  /** The view's query over the Position table, in table order. */
  function Selection(sel: Selector, all: seq<Position>): (r: seq<Position>)
    ensures |r| <= |all|
    ensures forall p :: p in r <==> p in all && Chosen(sel, p)
    ensures forall p :: p in r ==> p.strategyType in {"live", "reversed"} && WeekdayOf(p.liquidationTime) <= 4
  {
    Where(all, p => Chosen(sel, p))
  }

  /** A table in liquidation order gives a selection in liquidation order,
      the order the view replays the positions in. */
  lemma SelectionByLiquidation(sel: Selector, all: seq<Position>)
    requires OrderedBy(all, (p: Position) => p.liquidationTime)
    ensures OrderedBy(Selection(sel, all), (p: Position) => p.liquidationTime)
  {
    WhereKeepsOrder(all, p => Chosen(sel, p), (p: Position) => p.liquidationTime);
  }

  /** The position loop of the view over its selection of `all`, the
      Position table in liquidation order; `store` is the 5-minute candle
      table in time order and `input` gives the rows of the algorithm input
      file for a liquidation date and a strategy type. */
  method Run(cfg: Config, input: (int, string) -> seq<InputRow>, store: seq<Candle>, all: seq<Position>, sel: Selector)
    returns (outcome: Outcome)
    ensures outcome == RunFrom(cfg, input, store, Start, Selection(sel, all))
  {
    var positions := Selection(sel, all);
    var ledger := new Ledger();
    var winStreak := new WinStreak();
    var totalReturns := INITIAL_CAPITAL;
    var wins: nat, losses: nat := 0, 0;
    var sl := 1.0;
    var lastLong: Option<int>, lastShort: Option<int> := None, None;
    var i := 0;
    while i < |positions|
      invariant 0 <= i <= |positions| && UnitSl(sl)
      invariant RunFrom(cfg, input, store, Start, positions) ==
                RunFrom(cfg, input, store, Snapshot(totalReturns, wins, losses, winStreak, sl, lastLong, lastShort, ledger), positions[i..])
    {
      var position := positions[i];
      assert positions[i..][0] == position && positions[i..][1..] == positions[i + 1..];
      var failure;
      failure, totalReturns, wins, losses, sl, lastLong, lastShort :=
        HandlePosition(cfg, input(DayOf(position.liquidationTime), position.strategyType), store, position,
                       ledger, winStreak, totalReturns, wins, losses, sl, lastLong, lastShort);
      if failure.Some? {
        return Crash(failure.value);
      }
      i := i + 1;
    }
    outcome := Continue(Snapshot(totalReturns, wins, losses, winStreak, sl, lastLong, lastShort, ledger));
  }

  /** The figures the view shows next to the table. */
  datatype Report = Report(ratio: real, wins: nat, losses: nat, nrOfTrades: nat, longestWinStreak: nat, longestLossStreak: nat)

  /** The summary of a finished run: the win percentage and the trade count add up. */
  function Summary(s: RunState): (r: Report)
    ensures r.nrOfTrades == r.wins + r.losses && 0.0 <= r.ratio <= 100.0
    ensures r.ratio == 100.0 <==> s.wins > 0 && s.losses == 0
  {
    Report(WinPercentage(s.wins, s.losses), s.wins, s.losses, s.wins + s.losses, s.streak.longestWin, s.streak.longestLoss)
  }
}
