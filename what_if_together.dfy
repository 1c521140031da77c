/** The what-if-together view: three strategies (live, reversed, grey), each
    with its own weekdays, hours, stop-loss and take-profit, share one
    compounding capital. Every position goes to the first strategy whose
    weekdays and hours contain its start, is traded on the side that strategy
    implies and closes at the first candle that reaches its stop-loss or its
    take-profit. */
module WhatIfTogether {
  import opened Market
  import opened ViewHelpers
  import opened Equity
  import opened Stops
  import WhatIf

  datatype Name = Live | Reversed | Grey

  /** The strategy type a selected position is given. */
  function Tag(n: Name): string
  {
    match n
    case Live => "live"
    case Reversed => "reversed"
    case Grey => "grey"
  }

  /** The form fields of one strategy: ticked in the strategy list or not, the
      weekdays (Monday = 0) and hours it trades, and its stop-loss and
      take-profit percentages. */
  datatype Strategy = Strategy(enabled: bool, weekDays: set<int>, hours: set<int>, sl: real, tp: real)

  datatype Config = Config(live: Strategy, reversed: Strategy, grey: Strategy)

  function StrategyOf(cfg: Config, n: Name): Strategy
  {
    match n
    case Live => cfg.live
    case Reversed => cfg.reversed
    case Grey => cfg.grey
  }

  /** The order in which the strategies are tried. */
  function Rank(n: Name): nat
  {
    match n
    case Live => 0
    case Reversed => 1
    case Grey => 2
  }

  predicate Matches(st: Strategy, p: Position)
  {
    st.enabled && WeekdayOf(p.start) in st.weekDays && HourOf(p.start) in st.hours
  }

  /** The if/elif chain over the strategies. */
  function Selected(cfg: Config, p: Position): Option<Name>
  {
    if Matches(cfg.live, p) then Some(Live)
    else if Matches(cfg.reversed, p) then Some(Reversed)
    else if Matches(cfg.grey, p) then Some(Grey)
    else None
  }

  /** The selected strategy is one that matches and no strategy tried before
      it matches; nothing is selected exactly when no strategy matches. */
  lemma SelectionPrecedence(cfg: Config, p: Position)
    ensures Selected(cfg, p).None? <==> forall m: Name :: !Matches(StrategyOf(cfg, m), p)
    ensures Selected(cfg, p).Some? ==>
              Matches(StrategyOf(cfg, Selected(cfg, p).value), p) &&
              forall m: Name :: Rank(m) < Rank(Selected(cfg, p).value) ==> !Matches(StrategyOf(cfg, m), p)
  {
    if Selected(cfg, p).None? {
      forall m: Name ensures !Matches(StrategyOf(cfg, m), p) {
        match m
        case Live =>
        case Reversed =>
        case Grey =>
      }
    } else {
      var n := Selected(cfg, p).value;
      assert Matches(StrategyOf(cfg, n), p);
      forall m: Name | Rank(m) < Rank(n) ensures !Matches(StrategyOf(cfg, m), p) {
        match m
        case Live =>
        case Reversed =>
        case Grey =>
      }
    }
  }

  /** A selected position on the side its strategy trades, with its new
      strategy type, and that strategy's stop-loss and take-profit. */
  datatype Choice = Choice(position: Position, sl: real, tp: real)

  /** The reversed strategy trades the opposite of the live signal: a position
      changes side when it moves into or out of the reversed strategy. */
  function Choose(cfg: Config, p: Position): (r: Option<Choice>)
    ensures r.None? <==> Selected(cfg, p).None?
  {
    match Selected(cfg, p)
    case None => None
    case Some(n) =>
      var flip := if n == Reversed then p.strategyType != "reversed" else p.strategyType == "reversed";
      var st := StrategyOf(cfg, n);
      Some(Choice(p.(side := if flip then Flip(p.side) else p.side, strategyType := Tag(n)), st.sl, st.tp))
  }

  /** The selected strategy's stop-loss, take-profit and name are applied, the
      side changes exactly when being of the reversed strategy changes, and no
      other field of the position changes. */
  lemma ChoiceFlipsSide(cfg: Config, p: Position)
    requires Selected(cfg, p).Some?
    ensures var n := Selected(cfg, p).value; var ch := Choose(cfg, p).value;
            && ch.position.strategyType == Tag(n)
            && ch.sl == StrategyOf(cfg, n).sl && ch.tp == StrategyOf(cfg, n).tp
            && (ch.position.side != p.side <==> ((n == Reversed) != (p.strategyType == "reversed")))
            && ch.position == p.(side := ch.position.side, strategyType := ch.position.strategyType)
  {
    if Selected(cfg, p).value == Reversed {
      assert Tag(Reversed) == "reversed";
    }
  }

  /** Opening on the first candle: the entry is its open shifted 0.01% in the
      trader's favour (up for SHORT, down for LONG) and the size stakes the whole running
      total on a stop-loss of sl%. */
  datatype Opened = Opened(entry: real, size: real)

  function Opening(total: real, side: Side, sl: real, first: Candle): (o: Opened)
    requires sl != 0.0 && first.open != 0.0
    ensures o.entry == EntryPrice(side, first.open) && o.entry != 0.0
    ensures o.size * o.entry * sl == total
  {
    var entry := EntryPrice(side, first.open);
    var size := total / entry / sl;
    assert size * entry * sl == total by {
      assert total / entry / sl * entry * sl == total;
    }
    Opened(entry, size)
  }

  /** A candle that ends the position: the kind of exit, the closing price the
      list shows and what the close adds to the running total. */
  datatype Exit = Exit(kind: ExitKind, closing: real, change: real)

  /** One candle: the stop-loss is tested first, on the candle's adverse
      extreme; the take-profit on its close. A SHORT take-profit records the
      closing price entry + tp%. */
  function Hit(side: Side, o: Opened, sl: real, tp: real, c: Candle): (r: Option<Exit>)
    ensures r.Some? && r.value.kind == StopLoss ==>
              r.value.change == -WhatIf.STOP_FEE * o.size - o.entry * sl / 100.0 * o.size
    ensures r.Some? && r.value.kind == TakeProfit ==>
              r.value.change == -WhatIf.TAKE_PROFIT_FEE * o.size + o.entry * tp / 100.0 * o.size &&
              r.value.closing == o.entry + o.entry * tp / 100.0
    ensures r.Some? && r.value.kind == StopLoss ==>
              r.value.closing == (if side == Long then o.entry - o.entry * sl / 100.0 else o.entry + o.entry * sl / 100.0)
    ensures r.Some? ==> r.value.kind != TrailingStop
  {
    var stopped := if side == Long then c.low <= o.entry - o.entry * sl / 100.0
                   else c.high >= o.entry + o.entry * sl / 100.0;
    var target := if side == Long then c.close >= o.entry + o.entry * tp / 100.0
                  else c.close <= o.entry - o.entry * tp / 100.0;
    if stopped then
      var closing := if side == Long then o.entry - o.entry * sl / 100.0 else o.entry + o.entry * sl / 100.0;
      Some(Exit(StopLoss, closing, -WhatIf.STOP_FEE * o.size - o.entry * sl / 100.0 * o.size))
    else if target then
      Some(Exit(TakeProfit, o.entry + o.entry * tp / 100.0, -WhatIf.TAKE_PROFIT_FEE * o.size + o.entry * tp / 100.0 * o.size))
    else None
  }

  /** The stop-loss wins a candle that reaches both levels; the take-profit
      fires only on a candle that stays clear of the stop and closes past the
      target; a candle reaching neither does nothing. */
  lemma StopLossBeforeTakeProfit(side: Side, o: Opened, sl: real, tp: real, c: Candle)
    ensures var stopped := if side == Long then c.low <= o.entry - o.entry * sl / 100.0
                           else c.high >= o.entry + o.entry * sl / 100.0;
            var target := if side == Long then c.close >= o.entry + o.entry * tp / 100.0
                          else c.close <= o.entry - o.entry * tp / 100.0;
            var r := Hit(side, o, sl, tp, c);
            && (stopped <==> r.Some? && r.value.kind == StopLoss)
            && (!stopped && target <==> r.Some? && r.value.kind == TakeProfit)
            && (r.None? <==> !stopped && !target)
  {
  }

  /** A stop-loss on a position of positive size and entry always lowers the
      total, and a SHORT take-profit lists a closing price above the level
      that triggered it. */
  lemma ExitSigns(side: Side, o: Opened, sl: real, tp: real, c: Candle)
    requires o.size > 0.0 && o.entry > 0.0 && sl >= 0.0 && tp > 0.0
    ensures var r := Hit(side, o, sl, tp, c);
            && (r.Some? && r.value.kind == StopLoss ==> r.value.change < 0.0)
            && (r.Some? && r.value.kind == TakeProfit && side == Short ==> r.value.closing > o.entry - o.entry * tp / 100.0)
  {
    var r := Hit(side, o, sl, tp, c);
    if r.Some? && r.value.kind == StopLoss {
      assert o.entry * sl / 100.0 * o.size >= 0.0;
    }
    if r.Some? && r.value.kind == TakeProfit {
      assert o.entry * tp / 100.0 > 0.0;
    }
  }

  /** The candle loop: the first candle that hits ends it. */
  function Replay(side: Side, o: Opened, sl: real, tp: real, cs: seq<Candle>): Option<Exit>
    decreases |cs|
  {
    if cs == [] then None
    else if Hit(side, o, sl, tp, cs[0]).Some? then Hit(side, o, sl, tp, cs[0])
    else Replay(side, o, sl, tp, cs[1..])
  }

  /** The loop's result is the exit of the first candle that hits, and there is
      none exactly when no candle hits. */
  lemma {:induction false} ReplayIsFirstHit(side: Side, o: Opened, sl: real, tp: real, cs: seq<Candle>)
    ensures Replay(side, o, sl, tp, cs).None? <==> forall k :: 0 <= k < |cs| ==> Hit(side, o, sl, tp, cs[k]).None?
    ensures Replay(side, o, sl, tp, cs).Some? ==>
              exists k :: 0 <= k < |cs| && Replay(side, o, sl, tp, cs) == Hit(side, o, sl, tp, cs[k]) &&
                          forall j :: 0 <= j < k ==> Hit(side, o, sl, tp, cs[j]).None?
    decreases |cs|
  {
    if cs != [] && Hit(side, o, sl, tp, cs[0]).None? {
      ReplayIsFirstHit(side, o, sl, tp, cs[1..]);
      assert forall k :: 1 <= k < |cs| ==> cs[1..][k - 1] == cs[k];
      if Replay(side, o, sl, tp, cs).Some? {
        var k :| 0 <= k < |cs[1..]| && Replay(side, o, sl, tp, cs[1..]) == Hit(side, o, sl, tp, cs[1..][k]) &&
                 forall j :: 0 <= j < k ==> Hit(side, o, sl, tp, cs[1..][j]).None?;
        assert cs[1..][k] == cs[k + 1];
        assert forall j :: 0 <= j < k + 1 ==> Hit(side, o, sl, tp, cs[j]).None? by {
          forall j | 0 <= j < k + 1 ensures Hit(side, o, sl, tp, cs[j]).None? {
            if j > 0 { assert cs[1..][j - 1] == cs[j]; }
          }
        }
      }
    } else if cs != [] {
      assert Replay(side, o, sl, tp, cs) == Hit(side, o, sl, tp, cs[0]);
    }
  }

  /** The candle loop of one position. */
  method ReplayCandles(side: Side, o: Opened, sl: real, tp: real, ohlcvs: seq<Candle>) returns (r: Option<Exit>)
    ensures r == Replay(side, o, sl, tp, ohlcvs)
  {
    var i := 0;
    while i < |ohlcvs|
      invariant 0 <= i <= |ohlcvs|
      invariant Replay(side, o, sl, tp, ohlcvs) == Replay(side, o, sl, tp, ohlcvs[i..])
    {
      assert ohlcvs[i..][0] == ohlcvs[i] && ohlcvs[i..][1..] == ohlcvs[i + 1..];
      var hit := Hit(side, o, sl, tp, ohlcvs[i]);
      if hit.Some? {
        return hit;
      }
      i := i + 1;
    }
    r := None;
  }

  /** The state of the run. */
  datatype RunState = RunState(total: real, wins: nat, losses: nat, trades: seq<Trade>, totals: seq<real>, dates: seq<int>)

  const Start: RunState := RunState(INITIAL_CAPITAL, 0, 0, [], [], [])

  /** One list entry, one total and one date per closed position. */
  predicate Aligned(s: RunState)
  {
    |s.trades| == |s.totals| == |s.dates| == s.wins + s.losses
  }

  /** A closed position: its returns are the opening fee plus what the close
      added, the total moves by exactly those returns, and a SHORT stopped out
      records its loss as its liquidation amount. */
  function Settle(s: RunState, ch: Choice, o: Opened, e: Exit): (s': RunState)
    ensures |s'.trades| == |s.trades| + 1
    ensures s'.total == s.total + s'.trades[0].pnl && s'.trades[0].pnl == -WhatIf.OPENING_FEE * o.size + e.change
    ensures s'.trades[1..] == s.trades && s'.totals == s.totals + [s'.total] && s'.dates == s.dates + [ch.position.start]
    ensures s'.trades[0] == Trade(if ch.position.side == Short && e.kind == StopLoss
                                  then ch.position.(liquidationAmount := o.entry * ch.sl / 100.0 * o.size)
                                  else ch.position,
                                  o.entry, o.size, e.closing, s'.trades[0].pnl)
    ensures s'.wins + s'.losses == s.wins + s.losses + 1 && (s'.wins == s.wins + 1 <==> e.kind == TakeProfit)
    ensures Aligned(s) ==> Aligned(s')
  {
    var pnl := -WhatIf.OPENING_FEE * o.size + e.change;
    var p := ch.position;
    var listed := if p.side == Short && e.kind == StopLoss then p.(liquidationAmount := o.entry * ch.sl / 100.0 * o.size) else p;
    var total := s.total + pnl;
    RunState(total,
             if e.kind == TakeProfit then s.wins + 1 else s.wins,
             if e.kind == TakeProfit then s.losses else s.losses + 1,
             [Trade(listed, o.entry, o.size, e.closing, pnl)] + s.trades,
             s.totals + [total],
             s.dates + [p.start])
  }

  datatype Outcome = Continue(s: RunState) | ZeroDivision

  /** The candles from the start of the position's minute for 28 days. */
  function Window(store: seq<Candle>, p: Position): seq<Candle>
  {
    Between(store, p.start - p.start % 60, p.start + 28 * DAY)
  }

  /** One iteration of the position loop. A position no strategy takes, or
      without candles, changes nothing; an entry or a stop-loss of 0 divides by
      zero; an opened position that never closes still pays its opening fee. */
  function PositionStep(cfg: Config, store: seq<Candle>, s: RunState, p: Position): (o: Outcome)
    ensures Selected(cfg, p).None? ==> o == Continue(s)
    ensures o.Continue? && Aligned(s) ==> Aligned(o.s)
    ensures o.Continue? ==> o.s.wins >= s.wins && o.s.losses >= s.losses && o.s.wins + o.s.losses <= s.wins + s.losses + 1
  {
    match Choose(cfg, p)
    case None => Continue(s)
    case Some(ch) =>
      var ohlcvs := Window(store, p);
      if ohlcvs == [] then Continue(s)
      else if ohlcvs[0].open == 0.0 || ch.sl == 0.0 then ZeroDivision
      else
        var op := Opening(s.total, ch.position.side, ch.sl, ohlcvs[0]);
        match Replay(ch.position.side, op, ch.sl, ch.tp, ohlcvs)
        case None => Continue(s.(total := s.total - WhatIf.OPENING_FEE * op.size))
        case Some(e) => Continue(Settle(s, ch, op, e))
  }

  /** A position that opens and never closes costs its opening fee and is not
      listed; the size it was charged for stakes the whole total. */
  lemma OpeningFeeStays(cfg: Config, store: seq<Candle>, s: RunState, p: Position)
    requires Selected(cfg, p).Some? && Window(store, p) != []
    requires Window(store, p)[0].open != 0.0 && Choose(cfg, p).value.sl != 0.0
    requires Replay(Choose(cfg, p).value.position.side,
                    Opening(s.total, Choose(cfg, p).value.position.side, Choose(cfg, p).value.sl, Window(store, p)[0]),
                    Choose(cfg, p).value.sl, Choose(cfg, p).value.tp, Window(store, p)).None?
    ensures var o := PositionStep(cfg, store, s, p);
            var ch := Choose(cfg, p).value;
            var op := Opening(s.total, ch.position.side, ch.sl, Window(store, p)[0]);
            o == Continue(s.(total := s.total - WhatIf.OPENING_FEE * op.size)) && op.size * op.entry * ch.sl == s.total
  {
  }

  /** The whole position loop, in order. */
  function RunFrom(cfg: Config, store: seq<Candle>, s: RunState, ps: seq<Position>): Outcome
    decreases |ps|
  {
    if ps == [] then Continue(s)
    else
      match PositionStep(cfg, store, s, ps[0])
      case ZeroDivision => ZeroDivision
      case Continue(s1) => RunFrom(cfg, store, s1, ps[1..])
  }

  /** A run keeps one list entry, one total and one date per win or loss, and
      never closes more positions than it is given. */
  lemma {:induction false} RunKeepsLedgerAligned(cfg: Config, store: seq<Candle>, s: RunState, ps: seq<Position>)
    requires Aligned(s)
    ensures RunFrom(cfg, store, s, ps).Continue? ==>
              Aligned(RunFrom(cfg, store, s, ps).s) &&
              RunFrom(cfg, store, s, ps).s.wins + RunFrom(cfg, store, s, ps).s.losses <= s.wins + s.losses + |ps|
    decreases |ps|
  {
    if ps != [] {
      match PositionStep(cfg, store, s, ps[0])
      case ZeroDivision =>
      case Continue(s1) =>
        RunKeepsLedgerAligned(cfg, store, s1, ps[1..]);
    }
  }

  /** A position of the view's query: entered on the first candle, within
      the optional start bounds. */
  predicate InRange(p: Position, startGte: Option<int>, startLt: Option<int>)
  {
    p.candlesBeforeEntry == 1 && (startGte.None? || p.start >= startGte.value) && (startLt.None? || p.start < startLt.value)
  }

  /** The view's selection: positions entered on the first candle, within the
      optional start bounds. */
  function Selection(positions: seq<Position>, startGte: Option<int>, startLt: Option<int>): (r: seq<Position>)
    ensures |r| <= |positions|
    ensures forall p :: p in r <==>
              p in positions && p.candlesBeforeEntry == 1 &&
              (startGte.None? || p.start >= startGte.value) && (startLt.None? || p.start < startLt.value)
  {
    Where(positions, p => InRange(p, startGte, startLt))
  }

  /** A table in start order gives a selection in start order, the order the
      view replays the positions in. */
  lemma SelectionByStart(positions: seq<Position>, startGte: Option<int>, startLt: Option<int>)
    requires OrderedBy(positions, (p: Position) => p.start)
    ensures OrderedBy(Selection(positions, startGte, startLt), (p: Position) => p.start)
  {
    WhereKeepsOrder(positions, p => InRange(p, startGte, startLt), (p: Position) => p.start);
  }

  /** One iteration of the position loop on the view's variables and list. */
  method HandlePosition(cfg: Config, store: seq<Candle>, position: Position, ledger: Ledger,
                        totalReturns: real, wins: nat, losses: nat)
    returns (zeroDivision: bool, totalReturns': real, wins': nat, losses': nat)
    modifies ledger
    ensures var o := PositionStep(cfg, store, old(RunState(totalReturns, wins, losses, ledger.objectList, ledger.totals, ledger.dates)), position);
            if zeroDivision then o == ZeroDivision
            else o == Continue(RunState(totalReturns', wins', losses', ledger.objectList, ledger.totals, ledger.dates))
  {
    ghost var s0 := RunState(totalReturns, wins, losses, ledger.objectList, ledger.totals, ledger.dates);
    zeroDivision := false;
    totalReturns', wins', losses' := totalReturns, wins, losses;
    var choice := Choose(cfg, position);
    if choice.None? {
      return;
    }
    var ch := choice.value;
    var ohlcvs := Window(store, position);
    if ohlcvs == [] {
      return;
    }
    if ohlcvs[0].open == 0.0 || ch.sl == 0.0 {
      zeroDivision := true;
      return;
    }
    var op := Opening(totalReturns, ch.position.side, ch.sl, ohlcvs[0]);
    totalReturns' := totalReturns - WhatIf.OPENING_FEE * op.size;
    var exit := ReplayCandles(ch.position.side, op, ch.sl, ch.tp, ohlcvs);
    if exit.None? {
      return;
    }
    var e := exit.value;
    totalReturns' := totalReturns' + e.change;
    var listed := ch.position;
    if listed.side == Short && e.kind == StopLoss {
      listed := listed.(liquidationAmount := op.entry * ch.sl / 100.0 * op.size);
    }
    if e.kind == TakeProfit {
      wins' := wins + 1;
    } else {
      losses' := losses + 1;
    }
    assert listed == if ch.position.side == Short && e.kind == StopLoss
                     then ch.position.(liquidationAmount := op.entry * ch.sl / 100.0 * op.size) else ch.position;
    var t := Trade(listed, op.entry, op.size, e.closing, -WhatIf.OPENING_FEE * op.size + e.change);
    assert Settle(s0, ch, op, e).trades[0] == t;
    assert Settle(s0, ch, op, e).trades == [t] + s0.trades;
    ledger.Log(t, totalReturns');
  }

  /** The view's position loop over the selected `positions`, with `store`
      the candle table in time order. */
  method RunSelected(cfg: Config, store: seq<Candle>, positions: seq<Position>) returns (outcome: Outcome)
    ensures outcome == RunFrom(cfg, store, Start, positions)
  {
    var ledger := new Ledger();
    var totalReturns := INITIAL_CAPITAL;
    var wins: nat, losses: nat := 0, 0;
    var i := 0;
    while i < |positions|
      invariant 0 <= i <= |positions|
      invariant RunFrom(cfg, store, Start, positions) ==
                RunFrom(cfg, store, RunState(totalReturns, wins, losses, ledger.objectList, ledger.totals, ledger.dates), positions[i..])
    {
      var position := positions[i];
      assert positions[i..][0] == position && positions[i..][1..] == positions[i + 1..];
      var zeroDivision;
      zeroDivision, totalReturns, wins, losses := HandlePosition(cfg, store, position, ledger, totalReturns, wins, losses);
      if zeroDivision {
        return ZeroDivision;
      }
      i := i + 1;
    }
    outcome := Continue(RunState(totalReturns, wins, losses, ledger.objectList, ledger.totals, ledger.dates));
  }

  /** The view: its selection of `all`, the Position table in start order,
      replayed position by position. */
  method Run(cfg: Config, store: seq<Candle>, all: seq<Position>, startGte: Option<int>, startLt: Option<int>)
    returns (outcome: Outcome)
    ensures outcome == RunFrom(cfg, store, Start, Selection(all, startGte, startLt))
  {
    outcome := RunSelected(cfg, store, Selection(all, startGte, startLt));
  }
}
