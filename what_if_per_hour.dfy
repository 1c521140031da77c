/** The what-if-per-hour view: for every hour of the day the positions that
    started in that hour are replayed twice with the what-if rules - once on
    their live sides and once reversed - and each replay yields its number of
    trades, its win ratio and its number of R's. */
module WhatIfPerHour {
  import opened Market
  import opened Equity
  import WhatIf

  /** The what-if rules of one replay: the full capital per trade and
      reversal always on, flipping either the reversed-strategy positions
      (live) or all the others (reversed). */
  function RunConfig(cfg: WhatIf.Config, reversed: bool): WhatIf.Config
  {
    cfg.(percentagePerTrade := 1.0, useReverse := true, reverseAll := reversed)
  }

  /** The live and the reversed replay trade every position on opposite sides. */
  lemma LiveAndReversedOppose(cfg: WhatIf.Config, p: Position)
    ensures WhatIf.TradedSide(RunConfig(cfg, true), p) == Flip(WhatIf.TradedSide(RunConfig(cfg, false), p))
    ensures WhatIf.TradedSide(RunConfig(cfg, false), p) == (if p.strategyType == "reversed" then Flip(p.side) else p.side)
  {
    WhatIf.ReversalRule(RunConfig(cfg, true), p);
    WhatIf.ReversalRule(RunConfig(cfg, false), p);
  }

  /** The view's optional form filters; Python treats a 0 liquidation bound
      as absent. */
  datatype Filters = Filters(startGte: Option<int>, startLt: Option<int>, minLiquidation: Option<real>, maxLiquidation: Option<real>)

  /** A position the form filters let through. */
  predicate Passes(f: Filters, p: Position)
  {
    && (f.startGte.None? || p.start >= f.startGte.value)
    && (f.startLt.None? || p.start < f.startLt.value)
    && LiquidationWithin(f.minLiquidation, f.maxLiquidation, p)
  }

  /** A position of the hour's query. */
  predicate InHour(f: Filters, hour: int, p: Position)
  {
    p.candlesBeforeEntry == 1 && HourOf(p.start) == hour && Passes(f, p)
  }

  /** The positions of one hour: those entered on the first candle, started
      in that hour and let through by the form filters, in the given order. */
  function AtHour(positions: seq<Position>, f: Filters, hour: int): (r: seq<Position>)
    ensures |r| <= |positions|
    ensures forall p :: p in r <==> p in positions && p.candlesBeforeEntry == 1 && HourOf(p.start) == hour && Passes(f, p)
  {
    Where(positions, p => InHour(f, hour, p))
  }

  /** A table in start order gives an hour's positions in start order, the
      order the view replays them in. */
  lemma AtHourByStart(positions: seq<Position>, f: Filters, hour: int)
    requires OrderedBy(positions, (p: Position) => p.start)
    ensures OrderedBy(AtHour(positions, f, hour), (p: Position) => p.start)
  {
    WhereKeepsOrder(positions, p => InHour(f, hour, p), (p: Position) => p.start);
  }

  /** One half of a table row. */
  datatype Half = Half(nrOfTrades: nat, ratio: real, nrOfRs: real)

  datatype HourRow = HourRow(hour: int, live: Half, reversed: Half)

  datatype Failure =
    | ZeroDivision     // a stop distance or an entry price of 0
    | UnboundStopLoss  // no position has set the stop distance yet

  /** The figures of a replay with stop distance `sl`: the number of R's
      counts tp/sl R per win and one R per loss. */
  function HalfOf(tp: real, s: WhatIf.RunState, sl: real): (h: Half)
    requires sl != 0.0
    ensures h.nrOfTrades == s.wins + s.losses && 0.0 <= h.ratio < 1.0
    ensures h.nrOfRs + s.losses as real == tp / sl * s.wins as real
  {
    Half(s.wins + s.losses, WinRatio(s.wins, s.losses), tp / sl * s.wins as real - s.losses as real)
  }

  datatype HalfRun = HalfOk(half: Half, carried: Option<real>) | HalfFailed(failure: Failure)

  /** The figures of a finished replay. The R's use the stop distance the last
      processed position left behind - the one of this replay when it had
      positions, otherwise the one carried over from earlier replays. */
  function HalfFrom(tp: real, o: WhatIf.Outcome, carried: Option<real>): (r: HalfRun)
    ensures r.HalfOk? ==> r.carried.Some? && o.Continue? && r.carried == (if o.s.sl.Some? then o.s.sl else carried)
    ensures r.HalfOk? ==> r.carried.value != 0.0 && r.half == HalfOf(tp, o.s, r.carried.value)
    ensures o.Continue? && o.s.sl.None? && carried.None? ==> r == HalfFailed(UnboundStopLoss)
    ensures o.ZeroDivision? ==> r == HalfFailed(ZeroDivision)
  {
    match o
    case ZeroDivision => HalfFailed(ZeroDivision)
    case Continue(s) =>
      var sl := if s.sl.Some? then s.sl else carried;
      if sl.None? then HalfFailed(UnboundStopLoss)
      else if sl.value == 0.0 then HalfFailed(ZeroDivision)
      else HalfOk(HalfOf(tp, s, sl.value), sl)
  }

  /** One replay of an hour's positions. */
  function RunHalf(cfg: WhatIf.Config, store: seq<Candle>, positions: seq<Position>, f: Filters, hour: int, reversed: bool,
                   carried: Option<real>): HalfRun
  {
    HalfFrom(cfg.tp, WhatIf.RunFrom(RunConfig(cfg, reversed), store, WhatIf.Start, AtHour(positions, f, hour)), carried)
  }

  datatype Table = Rows(rows: seq<HourRow>) | Failed(failure: Failure)

  /** The rows from `hour` to 23. */
  function RowsFrom(cfg: WhatIf.Config, store: seq<Candle>, positions: seq<Position>, f: Filters, hour: nat, carried: Option<real>): (t: Table)
    requires hour <= 24
    ensures t.Rows? ==> |t.rows| == 24 - hour && forall i :: 0 <= i < |t.rows| ==> t.rows[i].hour == hour + i
    decreases 24 - hour
  {
    if hour == 24 then Rows([])
    else
      match RunHalf(cfg, store, positions, f, hour, false, carried)
      case HalfFailed(f) => Failed(f)
      case HalfOk(live, c1) =>
        match RunHalf(cfg, store, positions, f, hour, true, c1)
        case HalfFailed(f) => Failed(f)
        case HalfOk(rev, c2) =>
          match RowsFrom(cfg, store, positions, f, hour + 1, c2)
          case Failed(f) => Failed(f)
          case Rows(rest) => Rows([HourRow(hour, live, rev)] + rest)
  }

  /** The rows already built followed by the rest of the table. */
  function Prepend(done: seq<HourRow>, t: Table): Table
  {
    match t
    case Failed(f) => Failed(f)
    case Rows(rest) => Rows(done + rest)
  }

  /** Prepending in two steps is prepending once. */
  lemma PrependTwice(done: seq<HourRow>, row: HourRow, t: Table)
    ensures Prepend(done, Prepend([row], t)) == Prepend(done + [row], t)
    ensures Prepend([], t) == t
  {
    if t.Rows? {
      assert done + ([row] + t.rows) == (done + [row]) + t.rows;
      assert [] + t.rows == t.rows;
    }
  }

  /** With no position in hour 0 the very first row already reads a stop
      distance that was never set. */
  lemma EmptyFirstHourFails(cfg: WhatIf.Config, store: seq<Candle>, positions: seq<Position>, f: Filters)
    requires AtHour(positions, f, 0) == []
    ensures RowsFrom(cfg, store, positions, f, 0, None) == Failed(UnboundStopLoss)
  {
    assert WhatIf.RunFrom(RunConfig(cfg, false), store, WhatIf.Start, []) == WhatIf.Continue(WhatIf.Start);
  }

  /** A replay without positions passes the carried stop distance on; one
      with positions carries its own last stop distance. */
  lemma CarriedStopDistance(cfg: WhatIf.Config, store: seq<Candle>, ps: seq<Position>, carried: Option<real>)
    requires HalfFrom(cfg.tp, WhatIf.RunFrom(cfg, store, WhatIf.Start, ps), carried).HalfOk?
    ensures ps == [] ==> HalfFrom(cfg.tp, WhatIf.RunFrom(cfg, store, WhatIf.Start, ps), carried).carried == carried
    ensures ps != [] ==> HalfFrom(cfg.tp, WhatIf.RunFrom(cfg, store, WhatIf.Start, ps), carried).carried ==
                         WhatIf.RunFrom(cfg, store, WhatIf.Start, ps).s.sl
  {
    WhatIf.RunKeepsLedgerAligned(cfg, store, WhatIf.Start, ps);
  }

  /** One hour of the table: its two replays, then the later hours. */
  lemma RowsFromStep(cfg: WhatIf.Config, store: seq<Candle>, positions: seq<Position>, f: Filters, hour: nat, carried: Option<real>,
                     live: HalfRun, rev: HalfRun)
    requires hour < 24
    requires live == RunHalf(cfg, store, positions, f, hour, false, carried) && live.HalfOk?
    requires rev == RunHalf(cfg, store, positions, f, hour, true, live.carried) && rev.HalfOk?
    ensures RowsFrom(cfg, store, positions, f, hour, carried) ==
            Prepend([HourRow(hour, live.half, rev.half)], RowsFrom(cfg, store, positions, f, hour + 1, rev.carried))
  {
  }

  /** One replay of the view on the engine. */
  method Replay(cfg: WhatIf.Config, store: seq<Candle>, positions: seq<Position>, f: Filters, hour: int, reversed: bool,
                carried: Option<real>) returns (r: HalfRun)
    ensures r == RunHalf(cfg, store, positions, f, hour, reversed, carried)
  {
    var outcome := WhatIf.RunSelected(RunConfig(cfg, reversed), store, AtHour(positions, f, hour));
    assert RunHalf(cfg, store, positions, f, hour, reversed, carried) == HalfFrom(cfg.tp, outcome, carried);
    if outcome.ZeroDivision? {
      return HalfFailed(ZeroDivision);
    }
    var s := outcome.s;
    var sl := if s.sl.Some? then s.sl else carried;
    if sl.None? {
      return HalfFailed(UnboundStopLoss);
    }
    if sl.value == 0.0 {
      return HalfFailed(ZeroDivision);
    }
    r := HalfOk(HalfOf(cfg.tp, s, sl.value), sl);
  }

  /** The view: 24 rows, hour by hour, each with its live and reversed replay. */
  method PerHour(cfg: WhatIf.Config, store: seq<Candle>, positions: seq<Position>, f: Filters) returns (table: Table)
    ensures table == RowsFrom(cfg, store, positions, f, 0, None)
  {
    var tableRows: seq<HourRow> := [];
    var sl: Option<real> := None;
    var hour := 0;
    PrependTwice([], HourRow(0, Half(0, 0.0, 0.0), Half(0, 0.0, 0.0)), RowsFrom(cfg, store, positions, f, 0, None));
    while hour < 24
      invariant 0 <= hour <= 24 && |tableRows| == hour
      invariant RowsFrom(cfg, store, positions, f, 0, None) == Prepend(tableRows, RowsFrom(cfg, store, positions, f, hour, sl))
    {
      var live := Replay(cfg, store, positions, f, hour, false, sl);
      if live.HalfFailed? {
        return Failed(live.failure);
      }
      var rev := Replay(cfg, store, positions, f, hour, true, live.carried);
      if rev.HalfFailed? {
        return Failed(rev.failure);
      }
      RowsFromStep(cfg, store, positions, f, hour, sl, live, rev);
      PrependTwice(tableRows, HourRow(hour, live.half, rev.half), RowsFrom(cfg, store, positions, f, hour + 1, rev.carried));
      tableRows := tableRows + [HourRow(hour, live.half, rev.half)];
      sl := rev.carried;
      hour := hour + 1;
    }
    assert RowsFrom(cfg, store, positions, f, 24, sl) == Rows([]);
    assert tableRows + [] == tableRows;
    table := Rows(tableRows);
  }
}
