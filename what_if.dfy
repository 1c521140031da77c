/** The what-if view: every position of the selection is replayed on its
    5-minute candles with a fixed stop-loss and take-profit, an optional
    trailing stop, a one-shot move of the stop past the entry and two partial
    take-profit tiers, with flat fees per unit of size. Positions can be traded
    on the opposite side. */
module WhatIf {
  import opened Market
  import opened ViewHelpers
  import opened Equity
  import opened Stops
  import opened CoreHelpers

  /** The flat fees per unit of opened size. */
  const OPENING_FEE: real := 100.0
  const STOP_FEE: real := 85.0
  const TAKE_PROFIT_FEE: real := 30.0

  /** A partial take-profit tier: used or not, its distance as a percentage of
      the take-profit distance, and the percentage of the opening size it closes. */
  datatype Tier = Tier(use: bool, pct: real, amountPct: real)

  /** The form fields of the view. */
  datatype Config = Config(
    sl: real, tp: real, useSlToEntry: bool, slToEntry: real,
    tp1: Tier, tp2: Tier,
    useReverse: bool, reverseAll: bool, noOverlap: bool,
    useTrailing: bool, trailing: real, compound: bool, percentagePerTrade: real)

  /** The side a position is traded on: with reversal on, "reverse all" flips
      every position that is not of the reversed strategy, and otherwise only
      the reversed-strategy positions are flipped. */
  function TradedSide(cfg: Config, p: Position): Side
  {
    if cfg.useReverse &&
       ((cfg.reverseAll && p.strategyType != "reversed") || (!cfg.reverseAll && p.strategyType == "reversed"))
    then Flip(p.side)
    else p.side
  }

  /** A position changes side exactly when reversal is on and "reverse all"
      disagrees with the position being of the reversed strategy. */
  lemma ReversalRule(cfg: Config, p: Position)
    ensures TradedSide(cfg, p) != p.side <==> cfg.useReverse && (cfg.reverseAll <==> p.strategyType != "reversed")
    ensures TradedSide(cfg, p) == p.side || TradedSide(cfg, p) == Flip(p.side)
  {
  }

  /** The state of one open position during the replay. */
  datatype Book = Book(
    entry: real,       // position.entry_price
    size: real,        // position.amount, the size at opening
    amount: real,      // the size still open
    pnl: real,         // position.what_if_returns
    slPrice: real,     // position_sl_price, the trailing stop
    done1: bool, done2: bool,
    armed: bool)       // use_sl_to_entry: the stop may still be moved

  /** Whether a candle's close reaches a tier on the position's side. */
  predicate TierHit(side: Side, entry: real, tp: real, tierPct: real, c: Candle)
  {
    if side == Long then c.close >= entry + entry * (tierPct / 100.0 * tp / 100.0)
    else c.close <= entry - entry * (tierPct / 100.0 * tp / 100.0)
  }

  datatype TierResult = TierResult(finished: bool, amount: real, pnl: real)

  /** A tier that is used, not yet finished and reached by the close books
      its share of the opening size at the tier's distance. */
  function TakeTier(tier: Tier, finished: bool, side: Side, tp: real, entry: real, size: real,
                    pnl: real, c: Candle, amount: real): (r: TierResult)
    ensures !tier.use || finished ==> r == TierResult(finished, amount, pnl)
    ensures r.finished <==> finished || (tier.use && TierHit(side, entry, tp, tier.pct, c))
    ensures r.finished && !finished ==>
      r.amount == amount - size * tier.amountPct / 100.0 &&
      r.pnl == pnl + (entry * (tp * tier.pct / 100.0) / 100.0) * (size * tier.amountPct / 100.0)
  {
    if tier.use && !finished && TierHit(side, entry, tp, tier.pct, c) then
      var localReturns := (entry * (tp * tier.pct / 100.0) / 100.0) * (size * tier.amountPct / 100.0);
      TierResult(true, amount - size * tier.amountPct / 100.0, pnl + localReturns)
    else
      TierResult(finished, amount, pnl)
  }

  /** The effect of one candle: the position stays open, closes at `closing`,
      or the overlap check breaks the candle loop off. `last` is the last
      candle time recorded for the position's side. */
  datatype Tick =
    | Hold(book: Book, sl: real, last: Option<int>)
    | Exit(book: Book, sl: real, last: Option<int>, kind: ExitKind, closing: real)
    | Overlap

  /** The stop, tier and take-profit rules of one candle for a LONG position. */
  function StepLong(cfg: Config, sl: real, b: Book, last: Option<int>, c: Candle): Tick
  {
    var b1 := if cfg.useTrailing then b.(slPrice := TrailLong(b.slPrice, b.entry, sl, cfg.trailing, c)) else b;
    if cfg.useTrailing && c.low <= b1.slPrice then
      var pnl := b1.pnl - STOP_FEE * b1.size - (b1.entry - b1.slPrice) * b1.amount;
      Exit(b1.(pnl := pnl), sl, last, TrailingStop, b1.slPrice)
    else if c.low <= b1.entry - b1.entry * sl / 100.0 then
      var pnl := b1.pnl - STOP_FEE * b1.size - (b1.entry * sl / 100.0) * b1.amount;
      Exit(b1.(pnl := pnl), sl, last, StopLoss, b1.entry - b1.entry * sl / 100.0)
    else
      var flip := b1.armed && c.high > b1.entry + b1.entry * (cfg.slToEntry / 100.0 * cfg.tp / 100.0);
      var sl2 := if flip then -sl else sl;
      var t1 := TakeTier(cfg.tp1, b1.done1, Long, cfg.tp, b1.entry, b1.size, b1.pnl, c, b1.amount);
      var t2 := TakeTier(cfg.tp2, b1.done2, Long, cfg.tp, b1.entry, b1.size, t1.pnl, c, t1.amount);
      var b2 := b1.(armed := if flip then false else b1.armed, done1 := t1.finished, done2 := t2.finished,
                    amount := t2.amount, pnl := t2.pnl);
      if c.close >= b2.entry + b2.entry * cfg.tp / 100.0 then
        var pnl := b2.pnl - TAKE_PROFIT_FEE * b2.size + (b2.entry * cfg.tp / 100.0) * b2.amount;
        Exit(b2.(pnl := pnl), sl2, last, TakeProfit, b2.entry + b2.entry * cfg.tp / 100.0)
      else
        Hold(b2, sl2, last)
  }

  /** The mirror image for a SHORT position; its take-profit records the
      closing price entry + tp%, the LONG side's level. */
  function StepShort(cfg: Config, sl: real, b: Book, last: Option<int>, c: Candle): Tick
  {
    var b1 := if cfg.useTrailing then b.(slPrice := TrailShort(b.slPrice, b.entry, sl, cfg.trailing, c)) else b;
    if cfg.useTrailing && c.high >= b1.slPrice then
      var pnl := b1.pnl - STOP_FEE * b1.size - (b1.slPrice - b1.entry) * b1.amount;
      Exit(b1.(pnl := pnl), sl, last, TrailingStop, b1.slPrice)
    else if c.high >= b1.entry + b1.entry * sl / 100.0 then
      var pnl := b1.pnl - STOP_FEE * b1.size - (b1.entry * sl / 100.0) * b1.amount;
      Exit(b1.(pnl := pnl), sl, last, StopLoss, b1.entry + b1.entry * sl / 100.0)
    else
      var flip := b1.armed && c.low < b1.entry - b1.entry * (cfg.slToEntry / 100.0 * cfg.tp / 100.0);
      var sl2 := if flip then -sl else sl;
      var t1 := TakeTier(cfg.tp1, b1.done1, Short, cfg.tp, b1.entry, b1.size, b1.pnl, c, b1.amount);
      var t2 := TakeTier(cfg.tp2, b1.done2, Short, cfg.tp, b1.entry, b1.size, t1.pnl, c, t1.amount);
      var b2 := b1.(armed := if flip then false else b1.armed, done1 := t1.finished, done2 := t2.finished,
                    amount := t2.amount, pnl := t2.pnl);
      if c.close <= b2.entry - b2.entry * cfg.tp / 100.0 then
        var pnl := b2.pnl - TAKE_PROFIT_FEE * b2.size + (b2.entry * cfg.tp / 100.0) * b2.amount;
        Exit(b2.(pnl := pnl), sl2, last, TakeProfit, b2.entry + b2.entry * cfg.tp / 100.0)
      else
        Hold(b2, sl2, last)
  }

  /** One candle: with overlap prevention on, a candle before the side's last
      recorded candle breaks the loop off, and every other candle becomes the
      side's last one before the rules run. */
  function Step(cfg: Config, side: Side, sl: real, b: Book, last: Option<int>, c: Candle): (t: Tick)
    ensures t.Overlap? <==> cfg.noOverlap && last.Some? && c.time < last.value
    ensures !t.Overlap? ==> t.last == (if cfg.noOverlap then Some(c.time) else last)
  {
    if cfg.noOverlap && last.Some? && c.time < last.value then Overlap
    else
      var last' := if cfg.noOverlap then Some(c.time) else last;
      if side == Long then StepLong(cfg, sl, b, last', c) else StepShort(cfg, sl, b, last', c)
  }

  /** With a trailing stop the fixed stop is never the exit: the trailing
      price is never looser than the fixed stop, so it fires first. */
  lemma TrailingPreemptsStopLoss(cfg: Config, side: Side, sl: real, b: Book, last: Option<int>, c: Candle)
    requires cfg.useTrailing
    ensures var t := Step(cfg, side, sl, b, last, c); !(t.Exit? && t.kind == StopLoss)
  {
    var last' := if cfg.noOverlap then Some(c.time) else last;
    if side == Long {
      LongTrailFirst(cfg, sl, b, last', c);
    } else {
      ShortTrailFirst(cfg, sl, b, last', c);
    }
  }

  /** For a LONG position a candle low at or under the fixed stop is also at
      or under the trailing price, so the trailing rule closes first. */
  lemma LongTrailFirst(cfg: Config, sl: real, b: Book, last: Option<int>, c: Candle)
    requires cfg.useTrailing
    ensures var t := StepLong(cfg, sl, b, last, c); !(t.Exit? && t.kind == StopLoss)
  {
    var trail := TrailLong(b.slPrice, b.entry, sl, cfg.trailing, c);
    if c.low <= b.entry - b.entry * sl / 100.0 {
      assert c.low <= trail;
      assert StepLong(cfg, sl, b, last, c).kind == TrailingStop;
    }
  }

  /** The SHORT mirror image: a high at or over the fixed stop is at or over
      the trailing price. */
  lemma ShortTrailFirst(cfg: Config, sl: real, b: Book, last: Option<int>, c: Candle)
    requires cfg.useTrailing
    ensures var t := StepShort(cfg, sl, b, last, c); !(t.Exit? && t.kind == StopLoss)
  {
    var trail := TrailShort(b.slPrice, b.entry, sl, cfg.trailing, c);
    if c.high >= b.entry + b.entry * sl / 100.0 {
      assert c.high >= trail;
      assert StepShort(cfg, sl, b, last, c).kind == TrailingStop;
    }
  }

  /** A stop exit comes before the stop move and the tiers: it leaves the open
      amount, the tier flags, the arming and the stop distance as the candle
      found them. */
  lemma StopExitTouchesNoTier(cfg: Config, side: Side, sl: real, b: Book, last: Option<int>, c: Candle)
    ensures var t := Step(cfg, side, sl, b, last, c);
            t.Exit? && t.kind != TakeProfit ==>
              t.sl == sl && t.book.amount == b.amount && t.book.done1 == b.done1 && t.book.done2 == b.done2 && t.book.armed == b.armed
  {
    var last' := if cfg.noOverlap then Some(c.time) else last;
    if !(cfg.noOverlap && last.Some? && c.time < last.value) {
      if side == Long {
        LongStopExit(cfg, sl, b, last', c);
      } else {
        ShortStopExit(cfg, sl, b, last', c);
      }
    }
  }

  /** A LONG's stop exits carry the book as the trailing move left it. */
  lemma LongStopExit(cfg: Config, sl: real, b: Book, last: Option<int>, c: Candle)
    ensures var t := StepLong(cfg, sl, b, last, c);
            t.Exit? && t.kind != TakeProfit ==>
              t.sl == sl && t.book.amount == b.amount && t.book.done1 == b.done1 && t.book.done2 == b.done2 && t.book.armed == b.armed
  {
  }

  /** A SHORT's stop exits carry the book as the trailing move left it. */
  lemma ShortStopExit(cfg: Config, sl: real, b: Book, last: Option<int>, c: Candle)
    ensures var t := StepShort(cfg, sl, b, last, c);
            t.Exit? && t.kind != TakeProfit ==>
              t.sl == sl && t.book.amount == b.amount && t.book.done1 == b.done1 && t.book.done2 == b.done2 && t.book.armed == b.armed
  {
  }

  /** A SHORT take-profit is triggered by a close tp% under the entry, yet
      the price it records is tp% above the entry, the LONG side's level. */
  lemma ShortTakeProfitClosing(cfg: Config, sl: real, b: Book, last: Option<int>, c: Candle)
    ensures var t := StepShort(cfg, sl, b, last, c);
            t.Exit? && t.kind == TakeProfit ==>
              c.close <= b.entry - b.entry * cfg.tp / 100.0 && t.closing == b.entry + b.entry * cfg.tp / 100.0
  {
  }

  /** Within a candle the tier flags only rise, and the stop distance changes
      only by the one flip that disarms the move. */
  lemma StepOneShot(cfg: Config, side: Side, sl: real, b: Book, last: Option<int>, c: Candle)
    ensures var t := Step(cfg, side, sl, b, last, c);
            !t.Overlap? ==>
              (b.done1 ==> t.book.done1) && (b.done2 ==> t.book.done2) &&
              (t.sl == sl || (t.sl == -sl && b.armed && !t.book.armed)) && (!b.armed ==> !t.book.armed)
  {
    var last' := if cfg.noOverlap then Some(c.time) else last;
    if !(cfg.noOverlap && last.Some? && c.time < last.value) {
      if side == Long {
        LongOneShot(cfg, sl, b, last', c);
      } else {
        ShortOneShot(cfg, sl, b, last', c);
      }
    }
  }

  /** The one-shot rule for a LONG's rules. */
  lemma LongOneShot(cfg: Config, sl: real, b: Book, last: Option<int>, c: Candle)
    ensures var t := StepLong(cfg, sl, b, last, c);
            (b.done1 ==> t.book.done1) && (b.done2 ==> t.book.done2) &&
            (t.sl == sl || (t.sl == -sl && b.armed && !t.book.armed)) && (!b.armed ==> !t.book.armed)
  {
  }

  /** The one-shot rule for a SHORT's rules. */
  lemma ShortOneShot(cfg: Config, sl: real, b: Book, last: Option<int>, c: Candle)
    ensures var t := StepShort(cfg, sl, b, last, c);
            (b.done1 ==> t.book.done1) && (b.done2 ==> t.book.done2) &&
            (t.sl == sl || (t.sl == -sl && b.armed && !t.book.armed)) && (!b.armed ==> !t.book.armed)
  {
  }

  /** How a position's candle loop ended. */
  datatype End = StillOpen | Closed(kind: ExitKind, closing: real) | Overlapped

  datatype Replayed = Replayed(sl: real, book: Book, last: Option<int>, end: End)

  /** The candles of one position, in order, until it closes or overlaps. */
  function Replay(cfg: Config, side: Side, sl: real, b: Book, last: Option<int>, cs: seq<Candle>): Replayed
    decreases |cs|
  {
    if cs == [] then Replayed(sl, b, last, StillOpen)
    else
      match Step(cfg, side, sl, b, last, cs[0])
      case Overlap => Replayed(sl, b, last, Overlapped)
      case Exit(b1, sl1, last1, kind, closing) => Replayed(sl1, b1, last1, Closed(kind, closing))
      case Hold(b1, sl1, last1) => Replay(cfg, side, sl1, b1, last1, cs[1..])
  }

  /** On candles in time order, the overlap check can only break the loop off
      on the first candle: once a candle passed, it is the side's last one and
      every later candle is after it. */
  lemma {:induction false} OverlapOnlyOnFirstCandle(cfg: Config, side: Side, sl: real, b: Book, last: Option<int>, cs: seq<Candle>)
    requires Chronological(cs) && cs != []
    requires last.None? || cs[0].time >= last.value
    ensures Replay(cfg, side, sl, b, last, cs).end != Overlapped
    decreases |cs|
  {
    match Step(cfg, side, sl, b, last, cs[0])
    case Overlap =>
    case Exit(_, _, _, _, _) =>
    case Hold(b1, sl1, last1) =>
      if |cs| > 1 {
        assert cs[1..][0] == cs[1];
        assert Chronological(cs[1..]);
        OverlapOnlyOnFirstCandle(cfg, side, sl1, b1, last1, cs[1..]);
      }
  }

  /** Over a whole replay the stop distance is flipped at most once and not at all when unarmed. */
  lemma {:induction false} ReplayFlipsAtMostOnce(cfg: Config, side: Side, sl: real, b: Book, last: Option<int>, cs: seq<Candle>)
    ensures var r := Replay(cfg, side, sl, b, last, cs);
            (r.sl == sl || (r.sl == -sl && b.armed && !r.book.armed)) && (!b.armed ==> r.sl == sl && !r.book.armed)
    decreases |cs|
  {
    if cs != [] {
      StepOneShot(cfg, side, sl, b, last, cs[0]);
      match Step(cfg, side, sl, b, last, cs[0])
      case Overlap =>
      case Exit(_, _, _, _, _) =>
      case Hold(b1, sl1, last1) =>
        ReplayFlipsAtMostOnce(cfg, side, sl1, b1, last1, cs[1..]);
    }
  }

  /** The candle loop of one position. */
  method ReplayCandles(cfg: Config, side: Side, sl0: real, b0: Book, last0: Option<int>, ohlcvs: seq<Candle>)
    returns (r: Replayed)
    ensures r == Replay(cfg, side, sl0, b0, last0, ohlcvs)
  {
    var sl, book, last := sl0, b0, last0;
    var i := 0;
    while i < |ohlcvs|
      invariant 0 <= i <= |ohlcvs|
      invariant Replay(cfg, side, sl0, b0, last0, ohlcvs) == Replay(cfg, side, sl, book, last, ohlcvs[i..])
    {
      var candle := ohlcvs[i];
      assert ohlcvs[i..][0] == candle && ohlcvs[i..][1..] == ohlcvs[i + 1..];
      var tick := Step(cfg, side, sl, book, last, candle);
      if tick.Overlap? {
        return Replayed(sl, book, last, Overlapped);
      }
      if tick.Exit? {
        return Replayed(tick.sl, tick.book, tick.last, Closed(tick.kind, tick.closing));
      }
      sl, book, last := tick.sl, tick.book, tick.last;
      i := i + 1;
    }
    r := Replayed(sl, book, last, StillOpen);
  }

  /** The state of a whole run; `sl` is the stop distance the last position
      left behind, absent before the first position. */
  datatype RunState = RunState(
    total: real, wins: nat, losses: nat, sl: Option<real>,
    lastLong: Option<int>, lastShort: Option<int>,
    trades: seq<Trade>, totals: seq<real>, dates: seq<int>)

  const Start: RunState := RunState(INITIAL_CAPITAL, 0, 0, None, None, None, [], [], [])

  /** The list, the totals and the dates hold one entry per closed position. */
  predicate Aligned(s: RunState)
  {
    |s.trades| == |s.totals| == |s.dates| == s.wins + s.losses
  }

  function LastFor(s: RunState, side: Side): Option<int>
  {
    if side == Long then s.lastLong else s.lastShort
  }

  function WithLast(s: RunState, side: Side, last: Option<int>): RunState
  {
    if side == Long then s.(lastLong := last) else s.(lastShort := last)
  }

  /** Opening on the first candle, at its open. */
  function Opening(cfg: Config, total: real, side: Side, first: Candle): (b: Book)
    requires cfg.sl != 0.0 && first.open != 0.0
    ensures b.entry == first.open && b.amount == b.size && !b.done1 && !b.done2 && b.armed == cfg.useSlToEntry
    ensures b.size * cfg.sl * b.entry == (if cfg.compound then total else INITIAL_CAPITAL) * cfg.percentagePerTrade
    ensures b.pnl == -OPENING_FEE * b.size
  {
    var entry := first.open;
    var basis := if cfg.compound then total else INITIAL_CAPITAL;
    var size := basis / cfg.sl / entry * cfg.percentagePerTrade;
    assert size * cfg.sl * entry == basis * cfg.percentagePerTrade by {
      assert basis / cfg.sl / entry * cfg.sl * entry == basis;
    }
    var slPrice := if side == Long then entry * (1.0 - cfg.trailing / 100.0) else entry * (1.0 + cfg.trailing / 100.0);
    Book(entry, size, size, 0.0 - OPENING_FEE * size, slPrice, false, false, cfg.useSlToEntry)
  }

  /** The run after a position's candle loop. Every change to the position's
      returns went into the total as it happened; a closed position is listed
      and counts as a win only on its take-profit, and a SHORT stopped out
      records its loss as its liquidation amount. */
  function Settle(s: RunState, p: Position, b: Book, r: Replayed): (s': RunState)
    ensures s'.total == s.total + r.book.pnl && s'.sl == Some(r.sl) && LastFor(s', p.side) == r.last
    ensures LastFor(s', Flip(p.side)) == LastFor(s, Flip(p.side))
    ensures Aligned(s) ==> Aligned(s')
    ensures r.end.Closed? ==> s'.wins + s'.losses == s.wins + s.losses + 1 && (s'.wins == s.wins + 1 <==> r.end.kind == TakeProfit)
    ensures !r.end.Closed? ==> s'.wins == s.wins && s'.losses == s.losses && s'.trades == s.trades &&
                               s'.totals == s.totals && s'.dates == s.dates
    ensures r.end.Closed? ==>
              |s'.trades| == |s.trades| + 1 && s'.trades[1..] == s.trades &&
              s'.trades[0].entry == b.entry && s'.trades[0].size == b.size &&
              s'.trades[0].closing == r.end.closing && s'.trades[0].pnl == r.book.pnl &&
              s'.totals == s.totals + [s'.total] && s'.dates == s.dates + [p.start]
    ensures r.end.Closed? ==>
              s'.trades[0].position.(liquidationAmount := p.liquidationAmount) == p &&
              s'.trades[0].position.liquidationAmount ==
                (if p.side == Short && r.end.kind == StopLoss then r.book.entry * r.sl / 100.0 * r.book.amount
                 else p.liquidationAmount)
  {
    var s1 := WithLast(s.(total := s.total + r.book.pnl, sl := Some(r.sl)), p.side, r.last);
    match r.end
    case Closed(kind, closing) =>
      var listed := if p.side == Short && kind == StopLoss
                    then p.(liquidationAmount := r.book.entry * r.sl / 100.0 * r.book.amount) else p;
      s1.(wins := if kind == TakeProfit then s.wins + 1 else s.wins,
          losses := if kind == TakeProfit then s.losses else s.losses + 1,
          trades := [Trade(listed, b.entry, b.size, closing, r.book.pnl)] + s.trades,
          totals := s.totals + [s1.total],
          dates := s.dates + [p.start])
    case _ => s1
  }

  datatype Outcome = Continue(s: RunState) | ZeroDivision

  /** One iteration of the position loop: the stop distance and the arming
      are reset, the side may be flipped, and the candles from the start for
      28 days are replayed. A stop distance or first open of 0 divides by zero. */
  function PositionStep(cfg: Config, store: seq<Candle>, s: RunState, p: Position): (o: Outcome)
    ensures o.Continue? && Aligned(s) ==> Aligned(o.s)
    ensures o.Continue? ==> o.s.sl.Some?
  {
    var side := TradedSide(cfg, p);
    var ohlcvs := Between(store, p.start, p.start + 28 * DAY);
    if ohlcvs == [] then Continue(s.(sl := Some(cfg.sl)))
    else if cfg.sl == 0.0 || ohlcvs[0].open == 0.0 then ZeroDivision
    else
      var b := Opening(cfg, s.total, side, ohlcvs[0]);
      Continue(Settle(s, p.(side := side), b, Replay(cfg, side, cfg.sl, b, LastFor(s, side), ohlcvs)))
  }

  /** The whole position loop, in order. */
  function RunFrom(cfg: Config, store: seq<Candle>, s: RunState, ps: seq<Position>): Outcome
    decreases |ps|
  {
    if ps == [] then Continue(s)
    else
      match PositionStep(cfg, store, s, ps[0])
      case ZeroDivision => ZeroDivision
      case Continue(s1) => RunFrom(cfg, store, s1, ps[1..])
  }

  /** A run keeps one list entry, one total and one date per win or loss, and
      after at least one position it knows the last stop distance. */
  lemma {:induction false} RunKeepsLedgerAligned(cfg: Config, store: seq<Candle>, s: RunState, ps: seq<Position>)
    requires Aligned(s)
    ensures RunFrom(cfg, store, s, ps).Continue? ==> Aligned(RunFrom(cfg, store, s, ps).s)
    ensures RunFrom(cfg, store, s, ps).Continue? && ps != [] ==> RunFrom(cfg, store, s, ps).s.sl.Some?
    ensures RunFrom(cfg, store, s, ps).Continue? && ps == [] ==> RunFrom(cfg, store, s, ps).s == s
    decreases |ps|
  {
    if ps != [] {
      match PositionStep(cfg, store, s, ps[0])
      case ZeroDivision =>
      case Continue(s1) =>
        RunKeepsLedgerAligned(cfg, store, s1, ps[1..]);
        if ps[1..] != [] {
          assert RunFrom(cfg, store, s, ps) == RunFrom(cfg, store, s1, ps[1..]);
        }
    }
  }

  /** The end of a position's candle loop on the view's variables and list. */
  method SettlePosition(position: Position, book: Book, r: Replayed, ledger: Ledger,
                        totalReturns: real, wins: nat, losses: nat, sl: Option<real>, lastLong: Option<int>, lastShort: Option<int>)
    returns (totalReturns': real, wins': nat, losses': nat, sl': Option<real>, lastLong': Option<int>, lastShort': Option<int>)
    modifies ledger
    ensures RunState(totalReturns', wins', losses', sl', lastLong', lastShort', ledger.objectList, ledger.totals, ledger.dates) ==
            Settle(old(RunState(totalReturns, wins, losses, sl, lastLong, lastShort, ledger.objectList, ledger.totals, ledger.dates)),
                   position, book, r)
  {
    ghost var s0 := RunState(totalReturns, wins, losses, sl, lastLong, lastShort, ledger.objectList, ledger.totals, ledger.dates);
    totalReturns' := totalReturns + r.book.pnl;
    wins', losses', sl' := wins, losses, Some(r.sl);
    lastLong', lastShort' := lastLong, lastShort;
    if position.side == Long {
      lastLong' := r.last;
    } else {
      lastShort' := r.last;
    }
    if r.end.Closed? {
      var listed := position;
      if position.side == Short && r.end.kind == StopLoss {
        listed := listed.(liquidationAmount := r.book.entry * r.sl / 100.0 * r.book.amount);
      }
      if r.end.kind == TakeProfit {
        wins' := wins + 1;
      } else {
        losses' := losses + 1;
      }
      assert listed == if position.side == Short && r.end.kind == StopLoss
                       then position.(liquidationAmount := r.book.entry * r.sl / 100.0 * r.book.amount) else position;
      var t := Trade(listed, book.entry, book.size, r.end.closing, r.book.pnl);
      assert Settle(s0, position, book, r).trades[0] == t;
      assert Settle(s0, position, book, r).trades == [t] + s0.trades;
      ledger.Log(t, totalReturns');
    }
  }

  /** One iteration of the position loop on the view's variables and list. */
  method HandlePosition(cfg: Config, store: seq<Candle>, position: Position, ledger: Ledger,
                        totalReturns: real, wins: nat, losses: nat, sl: Option<real>, lastLong: Option<int>, lastShort: Option<int>)
    returns (zeroDivision: bool, totalReturns': real, wins': nat, losses': nat, sl': Option<real>,
             lastLong': Option<int>, lastShort': Option<int>)
    modifies ledger
    ensures var o := PositionStep(cfg, store, old(RunState(totalReturns, wins, losses, sl, lastLong, lastShort,
                                                           ledger.objectList, ledger.totals, ledger.dates)), position);
            if zeroDivision then o == ZeroDivision
            else o == Continue(RunState(totalReturns', wins', losses', sl', lastLong', lastShort',
                                        ledger.objectList, ledger.totals, ledger.dates))
  {
    ghost var s0 := RunState(totalReturns, wins, losses, sl, lastLong, lastShort, ledger.objectList, ledger.totals, ledger.dates);
    zeroDivision := false;
    totalReturns', wins', losses', sl', lastLong', lastShort' := totalReturns, wins, losses, sl, lastLong, lastShort;
    var side := TradedSide(cfg, position);
    var ohlcvs := Between(store, position.start, position.start + 28 * DAY);
    if ohlcvs == [] {
      sl' := Some(cfg.sl);
      return;
    }
    if cfg.sl == 0.0 || ohlcvs[0].open == 0.0 {
      zeroDivision := true;
      return;
    }
    var book := Opening(cfg, totalReturns, side, ohlcvs[0]);
    var r := ReplayCandles(cfg, side, cfg.sl, book, if side == Long then lastLong else lastShort, ohlcvs);
    assert PositionStep(cfg, store, s0, position) == Continue(Settle(s0, position.(side := side), book, r));
    totalReturns', wins', losses', sl', lastLong', lastShort' :=
      SettlePosition(position.(side := side), book, r, ledger, totalReturns, wins, losses, sl, lastLong, lastShort);
  }

  /** The form fields that select the view's positions. An empty list, a
      missing date and a missing or 0 amount are falsy in Python and filter
      nothing; week days are Django's, 1 for Sunday to 7 for Saturday. */
  datatype Selector = Selector(startGte: Option<int>, startLt: Option<int>, weekDays: set<int>, hours: set<int>,
                               minLiquidation: Option<real>, maxLiquidation: Option<real>, strategyTypes: set<string>)

  /** A position the view selects: entered on the first candle, with its
      start inside every bound the form sets. */
  predicate Chosen(sel: Selector, p: Position)
  {
    && p.candlesBeforeEntry == 1
    && (sel.startGte.None? || p.start >= sel.startGte.value)
    && (sel.startLt.None? || p.start < sel.startLt.value)
    && (sel.weekDays == {} || PythonWeekdayToDjangoWeekday(WeekdayOf(p.start)) in sel.weekDays)
    && (sel.hours == {} || HourOf(p.start) in sel.hours)
    && LiquidationWithin(sel.minLiquidation, sel.maxLiquidation, p)
    && (sel.strategyTypes == {} || p.strategyType in sel.strategyTypes)
  }

  /** The view's query over the Position table, in table order. */
  function Selection(sel: Selector, all: seq<Position>): (r: seq<Position>)
    ensures |r| <= |all|
    ensures forall p :: p in r <==> p in all && Chosen(sel, p)
    ensures forall p :: p in r ==> p.candlesBeforeEntry == 1 && (sel.hours != {} ==> HourOf(p.start) in sel.hours)
  {
    Where(all, p => Chosen(sel, p))
  }

  /** A table in start order gives a selection in start order, the order the
      view replays the positions in. */
  lemma SelectionByStart(sel: Selector, all: seq<Position>)
    requires OrderedBy(all, (p: Position) => p.start)
    ensures OrderedBy(Selection(sel, all), (p: Position) => p.start)
  {
    WhereKeepsOrder(all, p => Chosen(sel, p), (p: Position) => p.start);
  }

  /** The view's position loop over the selected `positions`, with `store`
      the candle table in time order. */
  method RunSelected(cfg: Config, store: seq<Candle>, positions: seq<Position>) returns (outcome: Outcome)
    ensures outcome == RunFrom(cfg, store, Start, positions)
  {
    var ledger := new Ledger();
    var totalReturns := INITIAL_CAPITAL;
    var wins: nat, losses: nat := 0, 0;
    var sl: Option<real> := None;
    var lastLong: Option<int>, lastShort: Option<int> := None, None;
    var i := 0;
    while i < |positions|
      invariant 0 <= i <= |positions|
      invariant RunFrom(cfg, store, Start, positions) ==
                RunFrom(cfg, store, RunState(totalReturns, wins, losses, sl, lastLong, lastShort,
                                             ledger.objectList, ledger.totals, ledger.dates), positions[i..])
    {
      var position := positions[i];
      assert positions[i..][0] == position && positions[i..][1..] == positions[i + 1..];
      var zeroDivision;
      zeroDivision, totalReturns, wins, losses, sl, lastLong, lastShort :=
        HandlePosition(cfg, store, position, ledger, totalReturns, wins, losses, sl, lastLong, lastShort);
      if zeroDivision {
        return ZeroDivision;
      }
      i := i + 1;
    }
    outcome := Continue(RunState(totalReturns, wins, losses, sl, lastLong, lastShort, ledger.objectList, ledger.totals, ledger.dates));
  }

  /** The view: its selection of `all`, the Position table in start order,
      replayed position by position. */
  method Run(cfg: Config, store: seq<Candle>, all: seq<Position>, sel: Selector) returns (outcome: Outcome)
    ensures outcome == RunFrom(cfg, store, Start, Selection(sel, all))
  {
    outcome := RunSelected(cfg, store, Selection(sel, all));
  }

  /** The figures the view shows: the win ratio is a fraction, 0 unless both
      wins and losses occurred. */
  function Ratio(s: RunState): (r: real)
    ensures 0.0 <= r < 1.0
    ensures r > 0.0 <==> s.wins > 0 && s.losses > 0
  {
    WinRatio(s.wins, s.losses)
  }
}
