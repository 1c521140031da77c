/** The command that writes the algorithm's per-hour input: for each of five
    take-profit/stop-loss pairs it replays the positions of the last six months
    hour by hour, scores each hour by its R's over the last six and three
    months, and then picks, per hour, whether to trade, the position weight
    and the best pair. */
module AlgorithmInput {
  import opened Market
  import opened CoreHelpers

  /** `x10_TP_SL_PAIRS`: take-profit and stop-loss in tenths of a percent. */
  datatype Pair = Pair(tpx10: int, slx10: int)

  const PAIRS: seq<Pair> := [Pair(30, 6), Pair(40, 8), Pair(50, 10), Pair(60, 12), Pair(70, 14)]

  function TpOf(pair: Pair): real { pair.tpx10 as real / 10.0 }

  function SlOf(pair: Pair): real { pair.slx10 as real / 10.0 }

  datatype Verdict = Win | Loss

  /** One candle: the stop-loss, on the adverse extreme, is tested before the
      take-profit, on the close. */
  function Decide(side: Side, entry: real, sl: real, tp: real, c: Candle): (r: Option<Verdict>)
    ensures r == Some(Loss) <==> (if side == Long then c.low <= entry - entry * sl / 100.0 else c.high >= entry + entry * sl / 100.0)
    ensures r == Some(Win) <==>
              r != Some(Loss) && (if side == Long then c.close >= entry + entry * tp / 100.0 else c.close <= entry - entry * tp / 100.0)
  {
    if side == Long then
      if c.low <= entry - entry * sl / 100.0 then Some(Loss)
      else if c.close >= entry + entry * tp / 100.0 then Some(Win)
      else None
    else
      if c.high >= entry + entry * sl / 100.0 then Some(Loss)
      else if c.close <= entry - entry * tp / 100.0 then Some(Win)
      else None
  }

  /** The verdict of the first deciding candle, if any. */
  function FirstVerdict(side: Side, entry: real, sl: real, tp: real, cs: seq<Candle>): Option<Verdict>
    decreases |cs|
  {
    if cs == [] then None
    else if Decide(side, entry, sl, tp, cs[0]).Some? then Decide(side, entry, sl, tp, cs[0])
    else FirstVerdict(side, entry, sl, tp, cs[1..])
  }

  /** FirstVerdict is the decision of the first candle that decides, and there
      is none exactly when no candle decides. */
  lemma {:induction false} FirstVerdictIsFirstDecision(side: Side, entry: real, sl: real, tp: real, cs: seq<Candle>)
    ensures FirstVerdict(side, entry, sl, tp, cs).None? <==> forall k :: 0 <= k < |cs| ==> Decide(side, entry, sl, tp, cs[k]).None?
    ensures FirstVerdict(side, entry, sl, tp, cs).Some? ==>
              exists k :: 0 <= k < |cs| && FirstVerdict(side, entry, sl, tp, cs) == Decide(side, entry, sl, tp, cs[k]) &&
                          forall j :: 0 <= j < k ==> Decide(side, entry, sl, tp, cs[j]).None?
    decreases |cs|
  {
    if cs != [] && Decide(side, entry, sl, tp, cs[0]).None? {
      FirstVerdictIsFirstDecision(side, entry, sl, tp, cs[1..]);
      assert forall k :: 1 <= k < |cs| ==> cs[1..][k - 1] == cs[k];
      if FirstVerdict(side, entry, sl, tp, cs).Some? {
        var k :| 0 <= k < |cs[1..]| && FirstVerdict(side, entry, sl, tp, cs[1..]) == Decide(side, entry, sl, tp, cs[1..][k]) &&
                 forall j :: 0 <= j < k ==> Decide(side, entry, sl, tp, cs[1..][j]).None?;
        assert cs[1..][k] == cs[k + 1];
        forall j | 0 <= j < k + 1 ensures Decide(side, entry, sl, tp, cs[j]).None? {
          if j > 0 { assert cs[1..][j - 1] == cs[j]; }
        }
      }
    } else if cs != [] {
      assert FirstVerdict(side, entry, sl, tp, cs) == Decide(side, entry, sl, tp, cs[0]);
    }
  }

  /** The six counters `calculate_position_outcome` returns. */
  datatype Tally = Tally(totalWins: nat, totalLosses: nat, sixMonthWins: nat, sixMonthLosses: nat,
                         threeMonthWins: nat, threeMonthLosses: nat)

  const NoTally: Tally := Tally(0, 0, 0, 0, 0, 0)

  function Add(a: Tally, b: Tally): Tally
  {
    Tally(a.totalWins + b.totalWins, a.totalLosses + b.totalLosses, a.sixMonthWins + b.sixMonthWins,
          a.sixMonthLosses + b.sixMonthLosses, a.threeMonthWins + b.threeMonthWins, a.threeMonthLosses + b.threeMonthLosses)
  }

  /** A tally never counts more in a shorter period than in a longer one. */
  predicate Nested(t: Tally)
  {
    t.threeMonthWins <= t.sixMonthWins <= t.totalWins && t.threeMonthLosses <= t.sixMonthLosses <= t.totalLosses
  }

  /** The candles of the replay: from the start for 14 days, but not past the
      midnight that begins `untilDay`. */
  function OutcomeWindow(store: seq<Candle>, p: Position, untilDay: int): seq<Candle>
  {
    var lastCandle := if p.start + 14 * DAY < untilDay * DAY then p.start + 14 * DAY else untilDay * DAY;
    Between(store, p.start, lastCandle)
  }

  /** `calculate_position_outcome` on the candle table: a win or a loss counts
      once in total, and also in the six- and three-month counters when the
      liquidation lies at most 180 or 90 days before `untilDay`. */
  function PositionOutcome(store: seq<Candle>, p: Position, tp: real, sl: real, untilDay: int): (t: Tally)
  {
    var cs := OutcomeWindow(store, p, untilDay);
    var age := untilDay - DayOf(p.liquidationTime);
    if cs == [] then NoTally
    else
      match FirstVerdict(p.side, EntryPrice(p.side, cs[0].open), sl, tp, cs)
      case None => NoTally
      case Some(Win) => Tally(1, 0, if age <= 180 then 1 else 0, 0, if age <= 90 then 1 else 0, 0)
      case Some(Loss) => Tally(0, 1, 0, if age <= 180 then 1 else 0, 0, if age <= 90 then 1 else 0)
  }

  /** Each counter is 0 or 1, a position is a win or a loss or neither, and
      the three-month counters never exceed the six-month ones, which never
      exceed the totals. */
  lemma PositionOutcomeBounds(store: seq<Candle>, p: Position, tp: real, sl: real, untilDay: int)
    ensures var t := PositionOutcome(store, p, tp, sl, untilDay);
            && t.totalWins <= 1 && t.totalLosses <= 1 && t.totalWins + t.totalLosses <= 1
            && t.sixMonthWins <= 1 && t.sixMonthLosses <= 1 && t.threeMonthWins <= 1 && t.threeMonthLosses <= 1
            && Nested(t)
            && (t.totalWins + t.totalLosses == 1 <==>
                  OutcomeWindow(store, p, untilDay) != [] &&
                  exists k :: 0 <= k < |OutcomeWindow(store, p, untilDay)| &&
                    Decide(p.side, EntryPrice(p.side, OutcomeWindow(store, p, untilDay)[0].open), sl, tp,
                           OutcomeWindow(store, p, untilDay)[k]).Some?)
  {
    var cs := OutcomeWindow(store, p, untilDay);
    if cs != [] {
      FirstVerdictIsFirstDecision(p.side, EntryPrice(p.side, cs[0].open), sl, tp, cs);
    }
  }

  /** The verdict from candle i on is candle i's, or else the one after it. */
  lemma FirstVerdictFrom(side: Side, entry: real, sl: real, tp: real, cs: seq<Candle>, i: nat)
    requires i < |cs|
    ensures FirstVerdict(side, entry, sl, tp, cs[i..]) ==
            if Decide(side, entry, sl, tp, cs[i]).Some? then Decide(side, entry, sl, tp, cs[i])
            else FirstVerdict(side, entry, sl, tp, cs[i + 1..])
  {
    assert cs[i..][0] == cs[i] && cs[i..][1..] == cs[i + 1..];
  }

  /** The counters for a verdict as the loop increments them. */
  method CalculatePositionOutcome(store: seq<Candle>, position: Position, tp: real, sl: real, untilDay: int)
    returns (t: Tally)
    ensures t == PositionOutcome(store, position, tp, sl, untilDay)
  {
    var totalWins, totalLosses, sixMonthWins, sixMonthLosses, threeMonthWins, threeMonthLosses := 0, 0, 0, 0, 0, 0;
    var ohlcvs := OutcomeWindow(store, position, untilDay);
    var age := untilDay - DayOf(position.liquidationTime);
    if ohlcvs == [] {
      return NoTally;
    }
    var entryPrice := EntryPrice(position.side, ohlcvs[0].open);
    var i := 0;
    while i < |ohlcvs|
      invariant 0 <= i <= |ohlcvs|
      invariant FirstVerdict(position.side, entryPrice, sl, tp, ohlcvs) == FirstVerdict(position.side, entryPrice, sl, tp, ohlcvs[i..])
      invariant totalWins == totalLosses == sixMonthWins == sixMonthLosses == threeMonthWins == threeMonthLosses == 0
    {
      FirstVerdictFrom(position.side, entryPrice, sl, tp, ohlcvs, i);
      var verdict := Decide(position.side, entryPrice, sl, tp, ohlcvs[i]);
      if verdict == Some(Loss) {
        totalLosses := totalLosses + 1;
        sixMonthLosses := sixMonthLosses + (if age <= 180 then 1 else 0);
        threeMonthLosses := threeMonthLosses + (if age <= 90 then 1 else 0);
        break;
      }
      if verdict == Some(Win) {
        totalWins := totalWins + 1;
        sixMonthWins := sixMonthWins + (if age <= 180 then 1 else 0);
        threeMonthWins := threeMonthWins + (if age <= 90 then 1 else 0);
        break;
      }
      i := i + 1;
    }
    t := Tally(totalWins, totalLosses, sixMonthWins, sixMonthLosses, threeMonthWins, threeMonthLosses);
  }

  /** The query of one hour: 5-minute positions of at least 2000 liquidated,
      started in the 180 days before `untilDay`, liquidated in that hour on a Monday to
      Friday (Django week days 2 to 6), of the strategy, confirmed by one
      candle (live) or one or two (reversed), and not entered on the first
      candle. */
  predicate Eligible(p: Position, untilDay: int, hour: int, strategyType: string)
  {
    && p.liquidationAmount >= 2000.0
    && p.timeframe == FIVE_MINUTE_TIMEFRAME
    && (untilDay - 180) * DAY <= p.start < untilDay * DAY
    && HourOf(p.liquidationTime) == hour
    && PythonWeekdayToDjangoWeekday(WeekdayOf(p.liquidationTime)) in {2, 3, 4, 5, 6}
    && p.strategyType == strategyType
    && (if strategyType == "live" then p.confirmationCandles == 1 else p.confirmationCandles in {1, 2})
    && p.candlesBeforeEntry != 1
  }

  function HourPositions(positions: seq<Position>, untilDay: int, hour: int, strategyType: string): (r: seq<Position>)
    ensures forall p :: p in r <==> p in positions && Eligible(p, untilDay, hour, strategyType)
    ensures |r| <= |positions|
  {
    if positions == [] then []
    else
      (if Eligible(positions[0], untilDay, hour, strategyType) then [positions[0]] else []) +
      HourPositions(positions[1..], untilDay, hour, strategyType)
  }

  /** The Monday-to-Friday filter on Django's week day numbers is the weekday
      filter 0 to 4 on Python's. */
  lemma WorkingDays(t: int)
    ensures PythonWeekdayToDjangoWeekday(WeekdayOf(t)) in {2, 3, 4, 5, 6} <==> WeekdayOf(t) <= 4
  {
  }

  /** The sums over an hour's positions. */
  function SumOutcomes(store: seq<Candle>, ps: seq<Position>, tp: real, sl: real, untilDay: int): Tally
    decreases |ps|
  {
    if ps == [] then NoTally
    else Add(SumOutcomes(store, ps[..|ps| - 1], tp, sl, untilDay), PositionOutcome(store, ps[|ps| - 1], tp, sl, untilDay))
  }

  /** An hour counts at most one trade per position, and its shorter periods
      never count more than its longer ones. */
  lemma {:induction false} SumOutcomesBounds(store: seq<Candle>, ps: seq<Position>, tp: real, sl: real, untilDay: int)
    ensures var t := SumOutcomes(store, ps, tp, sl, untilDay); t.totalWins + t.totalLosses <= |ps| && Nested(t)
    decreases |ps|
  {
    if ps != [] {
      SumOutcomesBounds(store, ps[..|ps| - 1], tp, sl, untilDay);
      PositionOutcomeBounds(store, ps[|ps| - 1], tp, sl, untilDay);
    }
  }

  /** The R's of a period: tp/sl R per win less 0.05 R of fees, and 1 R per
      loss plus 0.1 R of fees. */
  function NrOfRs(tp: real, sl: real, wins: nat, losses: nat): real
    requires sl != 0.0
  {
    tp / sl * wins as real - wins as real * 0.05 - losses as real - losses as real * 0.1
  }

  /** For every pair a win is worth 4.95 R and a loss costs 1.1 R. */
  lemma PairsScoreAlike(i: int, wins: nat, losses: nat)
    requires 0 <= i < |PAIRS|
    ensures SlOf(PAIRS[i]) != 0.0
    ensures NrOfRs(TpOf(PAIRS[i]), SlOf(PAIRS[i]), wins, losses) == 4.95 * wins as real - 1.1 * losses as real
  {
    var pair := PAIRS[i];
    assert TpOf(pair) == 5.0 * SlOf(pair) && SlOf(pair) > 0.0;
    assert TpOf(pair) / SlOf(pair) == 5.0;
  }

  /** An hour's score weighs the six-month R's and twice the three-month R's. */
  function Score(tp: real, sl: real, t: Tally): (r: real)
    requires sl != 0.0
    ensures r == NrOfRs(tp, sl, t.sixMonthWins, t.sixMonthLosses) + 2.0 * NrOfRs(tp, sl, t.threeMonthWins, t.threeMonthLosses)
  {
    (NrOfRs(tp, sl, t.sixMonthWins, t.sixMonthLosses) * 2.0 + NrOfRs(tp, sl, t.threeMonthWins, t.threeMonthLosses) * 4.0) / 2.0
  }

  /** A row of `run_algorithm_input`. */
  datatype ScoreRow = ScoreRow(hour: int, score: real, trades: nat)

  function HourScore(store: seq<Candle>, positions: seq<Position>, untilDay: int, pair: Pair, strategyType: string,
                     hour: int): (r: ScoreRow)
    requires pair.slx10 != 0
    ensures r.hour == hour
    ensures r.trades <= |HourPositions(positions, untilDay, hour, strategyType)|
  {
    var ps := HourPositions(positions, untilDay, hour, strategyType);
    var t := SumOutcomes(store, ps, TpOf(pair), SlOf(pair), untilDay);
    SumOutcomesBounds(store, ps, TpOf(pair), SlOf(pair), untilDay);
    ScoreRow(hour, Score(TpOf(pair), SlOf(pair), t), t.totalWins + t.totalLosses)
  }

  /** The sums over one hour's positions. */
  method SumHour(store: seq<Candle>, positions: seq<Position>, tp: real, sl: real, untilDay: int) returns (t: Tally)
    ensures t == SumOutcomes(store, positions, tp, sl, untilDay)
  {
    t := NoTally;
    var i := 0;
    while i < |positions|
      invariant 0 <= i <= |positions|
      invariant t == SumOutcomes(store, positions[..i], tp, sl, untilDay)
    {
      assert positions[..i + 1][..i] == positions[..i];
      var local := CalculatePositionOutcome(store, positions[i], tp, sl, untilDay);
      t := Add(t, local);
      i := i + 1;
    }
    assert positions[..|positions|] == positions;
  }

  /** `run_algorithm_input`: the 24 hours in order, each with its score and
      its number of trades. */
  method RunAlgorithmInput(store: seq<Candle>, positions: seq<Position>, untilDay: int, pair: Pair, strategyType: string)
    returns (rows: seq<ScoreRow>)
    requires pair.slx10 != 0
    ensures |rows| == 24
    ensures forall h :: 0 <= h < 24 ==> rows[h] == HourScore(store, positions, untilDay, pair, strategyType, h)
  {
    rows := [];
    var hour := 0;
    while hour < 24
      invariant 0 <= hour <= 24 && |rows| == hour
      invariant forall h :: 0 <= h < hour ==> rows[h] == HourScore(store, positions, untilDay, pair, strategyType, h)
    {
      var ps := HourPositions(positions, untilDay, hour, strategyType);
      var t := SumHour(store, ps, TpOf(pair), SlOf(pair), untilDay);
      rows := rows + [ScoreRow(hour, Score(TpOf(pair), SlOf(pair), t), t.totalWins + t.totalLosses)];
      hour := hour + 1;
    }
  }

  /** The largest score of a row. */
  function MaxScore(scores: seq<real>): (m: real)
    requires |scores| > 0
    ensures m in scores && forall j :: 0 <= j < |scores| ==> scores[j] <= m
    decreases |scores|
  {
    if |scores| == 1 then scores[0]
    else
      var rest := MaxScore(scores[1..]);
      assert forall j :: 1 <= j < |scores| ==> scores[j] == scores[1..][j - 1];
      if scores[0] >= rest then scores[0] else rest
  }

  /** `k` is the first index holding the largest score. */
  predicate IsFirstMax(scores: seq<real>, k: int)
  {
    0 <= k < |scores| && (forall j :: 0 <= j < |scores| ==> scores[j] <= scores[k]) &&
    forall j :: 0 <= j < k ==> scores[j] < scores[k]
  }

  /** There is only one first maximum. */
  lemma FirstMaxUnique(scores: seq<real>, k1: int, k2: int)
    requires IsFirstMax(scores, k1) && IsFirstMax(scores, k2)
    ensures k1 == k2
  {
    assert scores[k1] <= scores[k2] && scores[k2] <= scores[k1];
  }

  /** The index the running maximum ends on, scanning from the left. */
  function FirstMaxIndex(scores: seq<real>): (k: nat)
    requires |scores| > 0
    ensures IsFirstMax(scores, k)
    decreases |scores|
  {
    if |scores| == 1 then 0
    else
      var n := |scores| - 1;
      var k := FirstMaxIndex(scores[..n]);
      assert forall j :: 0 <= j < n ==> scores[..n][j] == scores[j];
      if scores[n] > scores[k] then n else k
  }

  /** The running maximum over the pairs, replaced only by a strictly higher
      score, so the first of equal scores stays. */
  method BestPair(scores: seq<real>) returns (k: nat)
    requires |scores| > 0
    ensures k == FirstMaxIndex(scores) && IsFirstMax(scores, k)
  {
    k := 0;
    var i := 1;
    assert scores[..1] == [scores[0]];
    while i < |scores|
      invariant 1 <= i <= |scores|
      invariant k == FirstMaxIndex(scores[..i])
    {
      assert scores[..i + 1][..i] == scores[..i];
      if scores[i] > scores[k] {
        k := i;
      }
      i := i + 1;
    }
    assert scores[..|scores|] == scores;
  }

  /** The position weight: a twentieth of the best score once it reaches 0.1,
      damped above 1 and halved, at most 1. */
  function Weight(best: real): (w: real)
    ensures 0.0 <= w <= 1.0
    ensures w > 0.0 <==> best >= 0.1
    ensures w == 1.0 <==> best >= 60.0
  {
    var r := if best >= 0.1 then best / 20.0 else 0.0;
    var damped := if r >= 1.0 then r * 0.5 + 0.5 else r;
    if damped / 2.0 < 1.0 then damped / 2.0 else 1.0
  }

  /** A higher best score never gets a lower weight. */
  lemma WeightMonotone(a: real, b: real)
    requires a <= b
    ensures Weight(a) <= Weight(b)
  {
  }

  /** A row of the algorithm input file. */
  datatype AlgorithmRow = AlgorithmRow(hour: int, trade: bool, weight: Option<real>, tp: Option<real>, sl: Option<real>)

  /** The file row for an hour with one score per pair: traded when the best
      score reaches 0.1, and then with the weight of the best score and the
      first pair that attains it; otherwise with no weight and no pair. */
  function RowOf(hour: int, scores: seq<real>): (row: AlgorithmRow)
    requires |scores| == |PAIRS|
    ensures row.hour == hour
    ensures row.trade <==> (exists k :: 0 <= k < |scores| && scores[k] >= 0.1)
    ensures !row.trade ==> row.weight.None? && row.tp.None? && row.sl.None?
    ensures row.trade ==> exists k :: (IsFirstMax(scores, k) &&
              row.weight == Some(Weight(scores[k])) && row.tp == Some(TpOf(PAIRS[k])) && row.sl == Some(SlOf(PAIRS[k])))
  {
    var tpPercentage := MaxScore(scores);
    var k := FirstMaxIndex(scores);
    assert tpPercentage == scores[k];
    if tpPercentage >= 0.1 then AlgorithmRow(hour, true, Some(Weight(tpPercentage)), Some(TpOf(PAIRS[k])), Some(SlOf(PAIRS[k])))
    else AlgorithmRow(hour, false, None, None, None)
  }

  /** One row of the file, with the running maximum over the pairs. */
  method WriteRow(hour: int, scores: seq<real>) returns (row: AlgorithmRow)
    requires |scores| == |PAIRS|
    ensures row == RowOf(hour, scores)
  {
    var tpPercentage := MaxScore(scores);
    var weighted := Weight(tpPercentage);
    var trade := tpPercentage >= 0.1;
    var k := BestPair(scores);
    if trade {
      row := AlgorithmRow(hour, true, Some(weighted), Some(TpOf(PAIRS[k])), Some(SlOf(PAIRS[k])));
    } else {
      row := AlgorithmRow(hour, false, None, None, None);
    }
  }

  /** The scores of one hour, one per pair in the order of PAIRS. */
  function ScoresAt(store: seq<Candle>, positions: seq<Position>, untilDay: int, strategyType: string, hour: int): (r: seq<real>)
    ensures |r| == |PAIRS|
  {
    seq(|PAIRS|, i requires 0 <= i < |PAIRS| => HourScore(store, positions, untilDay, PAIRS[i], strategyType, hour).score)
  }

  /** `run_algorithm_input` for every pair, in the order of PAIRS. */
  method ScoreTables(store: seq<Candle>, positions: seq<Position>, untilDay: int, strategyType: string)
    returns (tables: seq<seq<ScoreRow>>)
    ensures |tables| == |PAIRS| && forall j :: 0 <= j < |PAIRS| ==> |tables[j]| == 24
    ensures forall j, h :: 0 <= j < |PAIRS| && 0 <= h < 24 ==>
              tables[j][h] == HourScore(store, positions, untilDay, PAIRS[j], strategyType, h)
  {
    tables := [];
    for i := 0 to |PAIRS|
      invariant |tables| == i
      invariant forall j :: 0 <= j < i ==> |tables[j]| == 24
      invariant forall j, h :: 0 <= j < i && 0 <= h < 24 ==>
                  tables[j][h] == HourScore(store, positions, untilDay, PAIRS[j], strategyType, h)
    {
      var table := RunAlgorithmInput(store, positions, untilDay, PAIRS[i], strategyType);
      assert forall j :: 0 <= j < i ==> (tables + [table])[j] == tables[j];
      tables := tables + [table];
    }
  }

  /** The file row for one hour, read off the five score tables. */
  method HourRow(store: seq<Candle>, positions: seq<Position>, untilDay: int, strategyType: string,
                 tables: seq<seq<ScoreRow>>, hour: int) returns (row: AlgorithmRow)
    requires 0 <= hour < 24 && |tables| == |PAIRS|
    requires forall j :: 0 <= j < |PAIRS| ==> |tables[j]| == 24
    requires forall j :: 0 <= j < |PAIRS| ==> tables[j][hour] == HourScore(store, positions, untilDay, PAIRS[j], strategyType, hour)
    ensures row == RowOf(hour, ScoresAt(store, positions, untilDay, strategyType, hour))
  {
    var scores := [tables[0][hour].score, tables[1][hour].score, tables[2][hour].score,
                   tables[3][hour].score, tables[4][hour].score];
    ghost var expected := ScoresAt(store, positions, untilDay, strategyType, hour);
    assert forall i :: 0 <= i < |PAIRS| ==> scores[i] == expected[i];
    assert scores == expected;
    row := WriteRow(hour, scores);
  }

  /** The command for one strategy: the five score tables, then one file row
      per hour. */
  method Handle(store: seq<Candle>, positions: seq<Position>, untilDay: int, strategyType: string)
    returns (rows: seq<AlgorithmRow>)
    ensures |rows| == 24
    ensures forall h :: 0 <= h < 24 ==> rows[h] == RowOf(h, ScoresAt(store, positions, untilDay, strategyType, h))
  {
    var tables: seq<seq<ScoreRow>> := ScoreTables(store, positions, untilDay, strategyType);
    rows := [];
    for hour := 0 to 24
      invariant |rows| == hour
      invariant forall h :: 0 <= h < hour ==> rows[h] == RowOf(h, ScoresAt(store, positions, untilDay, strategyType, h))
    {
      var row := HourRow(store, positions, untilDay, strategyType, tables, hour);
      rows := rows + [row];
    }
  }
}
