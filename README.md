# journal-backend what-if engine, in Dafny

This project models the backtesting core of journal-backend. journal-backend is a Django service. It records crypto positions derived from liquidation events and replays historical 5-minute candles against them, asking "what if" different exit rules had been used.

The model covers three groups of code.

**The four what-if engines.** Each is a view that walks candidate positions in time order. For each position it replays up to 28 days of candles against the exit rules:
- a fixed stop-loss;
- a trailing stop;
- a one-shot "stop-loss to entry" flip;
- up to four partial take-profit tiers;
- a final take-profit;
- an RSI scale-out.

While walking, each engine keeps a running capital, win and loss counters, streaks and an equity series.

**The table builders.** These are:
- the per-hour table of `what_if_per_hour.py`;
- the per-position win/loss replay and R-score table of `create_algorithm_input.py`;
- the best (tp, sl) pair and weight per hour written to the algorithm input file.

**The discovery commands.** These are `create_positions`, `create_new_idea_positions` and `create_rsi_positions`. They scan candles after liquidations, or RSI extremes, for a confirmation candle and then for an entry candle.

## How the model is built

- **Values.**
  - Prices, amounts and fees are `real`.
  - Timestamps are `int` seconds of naive local time. `Market.DayOf`, `HourOf` and `WeekdayOf` derive the calendar fields; day 0 is a Thursday.
  - A candle is `Market.Candle`, a stored position `Market.Position`, a grouped liquidation `Market.LiquidationGroup`.
- **Queries.** A database query becomes a filter over a chronologically sorted candle store:
  - `Market.Between` for `gte`/`lt` windows;
  - `Market.From` for `gt` windows;
  - `Market.Before` for `lt` windows.
  Position querysets are input sequences, and a view's selection is a filter over them (`Market.Where`).
- **Loops become methods.** Every loop of the source is a `method` with a `while` loop. The method is proved equal to a recursive specification function. Its properties are then proved as lemmas about that function.
  - Candle loops: `ReplayCandles` against `Replay`.
  - Position loops: `Run` (and `RunSelected`, the loop over an already selected sequence) against `RunFrom`.
  - Scans: `ScanConfirmation` against `FirstConfirmation`.
  - Command loops: `Handle` against `Through` or `CreatedUpTo`.
- **Per-candle rules are functions.** The rules applied to one candle are one pure function per engine (`Step`), with the source's fixed rule order.
- **Mutated state is a class.** `WinStreak` (four counters updated in place) and `Equity.Ledger` (the `object_list`, `returns` and `dates` lists the engines prepend and append to) are classes with `modifies` clauses.
- **Crashes and fall-through are modelled as error values.**
  - A division by zero in sizing is `ZeroDivision`.
  - The per-hour view reading a stop distance no position has set is `UnboundStopLoss`.
  - `create_positions` indexing a one-candle volume window is `IndexError`, which ends the command.
  - A first candle whose `open` is 0 is a `ZeroDivision` outcome, not a precondition.

The variants differ and are modelled as written. This includes these quirks of the source:
- In `what_if_algorithm.py` the stop distance `sl` is set once, before the position loop. A "stop-loss to entry" flip negates it for every later position, and so negates later position sizes (`WhatIfAlgorithm.FlippedStopNegatesSize`).
- The SHORT branch of `what_if_algorithm.py` evaluates tier 1 in the "long" direction.
- `process_tp` reduces a LONG's open amount by a fraction of what is still open, and a SHORT's by a fraction of the original size.
- In `what_if.py` and `what_if_together.py` a SHORT take-profit records entry + tp% as its closing price.
- `what_if.py`, `what_if_per_hour.py` and `what_if_together.py` charge the opening fee to the running total before the position closes, so a position that never closes still costs that fee.
- `what_if_per_hour.py` computes each row's R figure with whatever `sl` the last processed position left behind, which may come from an earlier hour.

Some further behaviour of the code, which the model follows as written:
- A zero stop-loss is not rejected up front. The code divides by it mid-run, so the model returns `ZeroDivision` at that point.
- The win ratio of `what_if.py`, `what_if_per_hour.py` and `what_if_together.py` is 0 unless both wins and losses occurred. In `what_if_algorithm.py` it is a percentage that is 0 when there are no wins.
- Take-profit tiers close a share of the original size, apart from the LONG tiers of `process_tp`, which close a share of what is still open.
- `calculate_rsi` uses close-to-close changes; the RSI of `what_if_algorithm.py` uses open-to-close changes.

## Model

| member | source | states |
|---|---|---|
| Market.Flip | project/apps/core/views/what_if.py:89-92 | the other side is returned; never the same side |
| Market.HourOf | project/apps/core/views/what_if_per_hour.py:48 | the hour of a timestamp lies in 0..23 |
| Market.WeekdayOf | project/apps/core/views/what_if_together.py:60 | the Python weekday of a timestamp lies in 0..6 |
| Market.EntryPrice | project/apps/core/views/what_if_together.py:105-112 | entry is 0 exactly when the open is 0; for a positive open a SHORT enters above it and a LONG below it |
| Market.Between | project/apps/core/views/what_if.py:94-97 | the window holds exactly the stored candles with lo <= time < hi, and no more candles than the store |
| Market.From | project/apps/core/management/commands/create_rsi_positions.py:102-106 | the window holds exactly the stored candles at or after lo |
| Market.Before | project/apps/core/management/commands/create_positions.py:65-69 | the window holds exactly the stored candles before hi |
| Market.BetweenChronological | project/apps/core/views/what_if.py:94-97 | a window of a chronological store is itself in time order |
| Market.Where | project/apps/core/views/what_if.py:39-55 | a filtered queryset holds exactly the table's positions the filter admits, and no more than the table |
| Market.WhereKeepsOrder | project/apps/core/views/what_if.py:39-57 | filtering a table already in `order_by` order keeps that order |
| CoreHelpers.PythonWeekdayToDjangoWeekday | project/apps/core/helpers.py:1-4 | Python weekdays 0..5 map to w+2, 6 (Sunday) maps to 1, and every result of 0..6 lies in 1..7 |
| CoreHelpers.DjangoWeekdayToPythonWeekday | project/apps/core/helpers.py:1-4 | the inverse conversion yields a Python weekday in 0..6 |
| CoreHelpers.PythonRoundTrip | project/apps/core/helpers.py:4 | converting a Python weekday to Django and back gives it back |
| CoreHelpers.DjangoRoundTrip | project/apps/core/helpers.py:4 | converting a Django weekday to Python and back gives it back |
| CoreHelpers.ConversionIsBijective | project/apps/core/helpers.py:2-4 | the conversion is injective on 0..6 and onto 1..7 |
| Models.FeeOrZero | project/apps/core/models.py:43-44 | a missing fee counts as 0, a present one as its value |
| Models.Returns | project/apps/core/models.py:38-55 | with entry, closing price and amount all truthy the return is the side's gross P&L minus both fees; otherwise only minus the fees |
| Models.GrossIsAntisymmetric | project/apps/core/models.py:47-54 | LONG and SHORT gross P&L are negatives of each other, and both are 0 when closing equals entry |
| Models.ReturnsOfFlippedSide | project/apps/core/models.py:42-54 | the returns of a position and of the same position on the other side add up to minus twice the fees |
| Models.FeesLowerReturns | project/apps/core/models.py:42-44 | dropping the fees never lowers the returns |
| ViewHelpers.AfterWinSpec | project/apps/core/views/helpers.py:106-111 | a win increments the current win streak, zeroes the current loss streak, raises the longest win streak to at least the current one, and leaves the longest loss streak alone |
| ViewHelpers.AfterLossSpec | project/apps/core/views/helpers.py:113-118 | the exact mirror for a loss |
| ViewHelpers.RecordKeepsConsistent | project/apps/core/views/helpers.py:108-118 | after any outcome sequence from a consistent state, current <= longest for both kinds and at most one current streak is nonzero |
| ViewHelpers.LongestNeverDecrease | project/apps/core/views/helpers.py:106-118 | the longest streaks never decrease over any outcome sequence |
| ViewHelpers.CurrentWinIsTrailingRun | project/apps/core/views/helpers.py:106-111 | a sequence ending in k wins leaves a current win streak of at least k |
| ViewHelpers.StreakExample | project/apps/core/views/helpers.py:106-118 | W,W,L,W,W,W,L,L from a fresh streak gives longest win 3, longest loss 2, current win 0, current loss 2 |
| ViewHelpers.WinStreak.constructor | project/apps/core/views/helpers.py:101-104 | a fresh streak has all four counters at 0 |
| ViewHelpers.WinStreak.RecordWin | project/apps/core/views/helpers.py:106-111 | the fields change as AfterWin says and the longest loss streak is unchanged |
| ViewHelpers.WinStreak.RecordLoss | project/apps/core/views/helpers.py:113-118 | the fields change as AfterLoss says and the longest win streak is unchanged |
| Equity.Ledger.constructor | project/apps/core/views/what_if.py:59-60 | the position list, the totals and the dates start empty |
| Equity.Ledger.Log | project/apps/core/views/what_if.py:151-153 | a closed position is prepended to the list, its total and its start date appended |
| Equity.DayTotalsLastWrite | project/apps/core/views/what_if.py:361 | the total kept for a day is the one of the last record on that day |
| Equity.DayTotalsKeys | project/apps/core/views/what_if.py:361 | every day in the map is the day of some record |
| Equity.ForwardFill | project/apps/core/views/what_if.py:357-368 | one point per calendar day from the first to the last date (today alone when nothing closed), each the latest total on or before that day, INITIAL_CAPITAL before the first record |
| Equity.WinRatio | project/apps/core/views/what_if.py:400 | wins/(wins+losses), strictly between 0 and 1, when both counts are nonzero; 0 otherwise |
| Equity.WinPercentage | project/apps/core/views/what_if_algorithm.py:708 | a percentage in [0, 100], equal to 100 exactly when there are wins and no losses, and 100*wins/(wins+losses) when there are wins |
| Stops.Max3 | project/apps/core/views/what_if.py:131-136 | the largest of three stop prices |
| Stops.Min3 | project/apps/core/views/what_if.py:246-250 | the smallest of three stop prices |
| Stops.TrailLong | project/apps/core/views/what_if_algorithm.py:304-308 | the LONG trailing stop is one of {previous, entry - sl%, high - trailing%} and at least each of them, so it never falls |
| Stops.TrailShort | project/apps/core/views/what_if_algorithm.py:454-458 | the SHORT trailing stop is one of {previous, entry + sl%, low + trailing%} and at most each of them, so it never rises |
| WhatIf.ReversalRule | project/apps/core/views/what_if.py:87-92 | the side is flipped exactly when reversal is on and (reverse_all iff the tag is not "reversed"); it is either kept or flipped |
| WhatIf.TakeTier | project/apps/core/views/what_if.py:186-210 | an off or finished tier changes nothing; a tier finishes exactly when it was finished or fires on this candle's close, and a fire removes tier% of the original size and books its gain |
| WhatIf.Step | project/apps/core/views/what_if.py:119-128 | with no_overlap a candle before the side's last one stops the position, and otherwise the side's timestamp becomes the candle's time |
| WhatIf.TrailingPreemptsStopLoss | project/apps/core/views/what_if.py:131-177 | with the trailing stop on, no candle ends in the fixed stop-loss exit |
| WhatIf.StopExitTouchesNoTier | project/apps/core/views/what_if.py:131-184 | a stop exit leaves the stop distance, the open amount, the tier flags and the flip flag as they were |
| WhatIf.ShortTakeProfitClosing | project/apps/core/views/what_if.py:328-337 | a SHORT take-profit fires on a close at or under entry - tp%, yet records entry + tp% as its closing price |
| WhatIf.StepOneShot | project/apps/core/views/what_if.py:179-210 | within a candle tier flags only rise, and sl changes only by the one negation that disarms the flip |
| WhatIf.OverlapOnlyOnFirstCandle | project/apps/core/views/what_if.py:121-128 | on a chronological window the overlap break never happens after the first candle |
| WhatIf.ReplayFlipsAtMostOnce | project/apps/core/views/what_if.py:179-184 | a position's replay negates sl at most once, and only while the flip is armed |
| WhatIf.ReplayCandles | project/apps/core/views/what_if.py:118-348 | the candle loop returns what Replay gives |
| WhatIf.Opening | project/apps/core/views/what_if.py:100-117 | entry is the first open, size * sl * entry = basis * percentage_per_trade with basis the running total or INITIAL_CAPITAL, flags unset, and the 100*size opening fee charged |
| WhatIf.Settle | project/apps/core/views/what_if.py:139-176 | the total moves by the position's P&L (opening fee included), sl and the side's timestamp become those the replay left, the other side's is kept; a close prepends one trade (the position, its entry, size, closing price and P&L), appends the new total and the position's start, and adds exactly one win (take-profit) or one loss; a SHORT stopped out is listed with entry * sl% * amount as its liquidation amount and nothing else changed; without a close the trades, totals and dates stay as they were |
| WhatIf.PositionStep | project/apps/core/views/what_if.py:84-348 | a position keeps list, totals and dates aligned with the close count and leaves a stop distance set |
| WhatIf.RunKeepsLedgerAligned | project/apps/core/views/what_if.py:83-348 | a run keeps one list entry, total and date per close, sets sl once it had a position, and changes nothing without positions |
| WhatIf.SettlePosition | project/apps/core/views/what_if.py:139-176 | the method's new counters, totals and ledger are those of Settle |
| WhatIf.HandlePosition | project/apps/core/views/what_if.py:84-348 | one loop iteration changes the state as PositionStep says |
| WhatIf.Selection | project/apps/core/views/what_if.py:39-55 | the view replays exactly the first-candle entries inside every start, week-day, hour, liquidation-amount and strategy filter the form sets, an empty or 0 field filtering nothing; so every selected position entered on the first candle |
| WhatIf.SelectionByStart | project/apps/core/views/what_if.py:39-57 | a Position table in start order gives a selection in start order |
| WhatIf.RunSelected | project/apps/core/views/what_if.py:83-348 | the position loop returns what RunFrom gives |
| WhatIf.Run | project/apps/core/views/what_if.py:39-348 | the view returns RunFrom over its selection of the Position table |
| WhatIf.Ratio | project/apps/core/views/what_if.py:400 | the ratio lies in [0, 1) and is positive exactly when there are both wins and losses |
| WhatIfPerHour.LiveAndReversedOppose | project/apps/core/views/what_if_per_hour.py:83-92 | the live and the reversed replay trade every position on opposite sides, and the live one keeps the side of all but "reversed" positions |
| WhatIfPerHour.AtHour | project/apps/core/views/what_if_per_hour.py:46-59 | an hour's positions are exactly those entered on the first candle, started in that hour, within the optional start bounds and (unless 0) liquidation-amount bounds, in order |
| WhatIfPerHour.AtHourByStart | project/apps/core/views/what_if_per_hour.py:46-59 | a Position table in start order gives an hour's positions in start order |
| WhatIfPerHour.HalfOf | project/apps/core/views/what_if_per_hour.py:301-309 | nr_of_trades = wins + losses, ratio in [0, 1), nr_of_r_s + losses = tp/sl * wins |
| WhatIfPerHour.HalfFrom | project/apps/core/views/what_if_per_hour.py:304-309 | the trade count, ratio and R's are HalfOf with this replay's last sl, else the one carried from earlier replays; that sl is carried on; the half fails with UnboundStopLoss when neither exists and with ZeroDivision when the replay divided by zero |
| WhatIfPerHour.RowsFrom | project/apps/core/views/what_if_per_hour.py:43-310 | a table that does not fail has one row per remaining hour, in hour order |
| WhatIfPerHour.EmptyFirstHourFails | project/apps/core/views/what_if_per_hour.py:79-81 | with no position in hour 0 the first row reads an sl that was never set |
| WhatIfPerHour.CarriedStopDistance | project/apps/core/views/what_if_per_hour.py:307-309 | a replay without positions passes the carried sl on; one with positions carries its own |
| WhatIfPerHour.Replay | project/apps/core/views/what_if_per_hour.py:46-309 | one (hour, side) replay computes RunHalf |
| WhatIfPerHour.PerHour | project/apps/core/views/what_if_per_hour.py:43-310 | the view's table is RowsFrom from hour 0: 24 rows, hours 0..23 |
| WhatIfTogether.SelectionPrecedence | project/apps/core/views/what_if_together.py:58-92 | no strategy is selected exactly when none matches; otherwise the selected one matches and every higher-ranked one (live, then reversed, then grey) does not |
| WhatIfTogether.Choose | project/apps/core/views/what_if_together.py:58-92 | a position gets a choice exactly when a strategy is selected |
| WhatIfTogether.ChoiceFlipsSide | project/apps/core/views/what_if_together.py:64-90 | the chosen strategy's tag, sl and tp are applied; the side flips exactly when being "reversed" changes; nothing else changes |
| WhatIfTogether.Opening | project/apps/core/views/what_if_together.py:105-117 | entry is the first open shifted 0.01% in the trader's favour, and size * entry * sl = the running total |
| WhatIfTogether.Hit | project/apps/core/views/what_if_together.py:119-212 | a stop-loss closes at entry - sl% for a LONG and entry + sl% for a SHORT and costs the 85*size fee plus sl% of entry per unit; a take-profit gains tp% per unit less the 30*size fee and records entry + tp% as its closing price |
| WhatIfTogether.StopLossBeforeTakeProfit | project/apps/core/views/what_if_together.py:123-165 | a candle reaching the stop ends in a stop-loss; one clear of the stop that closes past the target ends in a take-profit; otherwise nothing happens |
| WhatIfTogether.ExitSigns | project/apps/core/views/what_if_together.py:193-201 | a stop-loss on a positive position always loses, and a SHORT take-profit lists a closing price above its trigger level |
| WhatIfTogether.ReplayIsFirstHit | project/apps/core/views/what_if_together.py:119-212 | the replay's exit is that of the first candle that hits, and there is none exactly when no candle hits |
| WhatIfTogether.ReplayCandles | project/apps/core/views/what_if_together.py:119-212 | the candle loop returns what Replay gives |
| WhatIfTogether.Settle | project/apps/core/views/what_if_together.py:139-189 | a close prepends one trade listing the chosen position (with `liquidation_amount` set to entry*sl%*size for a SHORT stop-loss), its entry, size, closing price and P&L, appends one total and date, moves the total by opening fee plus exit change, and adds a win exactly on a take-profit |
| WhatIfTogether.PositionStep | project/apps/core/views/what_if_together.py:55-212 | an unmatched position changes nothing; otherwise alignment is kept and at most one close is added |
| WhatIfTogether.OpeningFeeStays | project/apps/core/views/what_if_together.py:113-117 | a position that never closes still takes its opening fee from the total |
| WhatIfTogether.RunKeepsLedgerAligned | project/apps/core/views/what_if_together.py:55-212 | a run keeps list, totals and dates aligned and closes at most as many positions as it is given |
| WhatIfTogether.Selection | project/apps/core/views/what_if_together.py:38-46 | the selected positions are exactly those entered on the first candle within the optional start bounds |
| WhatIfTogether.SelectionByStart | project/apps/core/views/what_if_together.py:38-46 | a Position table in start order gives a selection in start order |
| WhatIfTogether.HandlePosition | project/apps/core/views/what_if_together.py:56-212 | one loop iteration changes the state as PositionStep says |
| WhatIfTogether.RunSelected | project/apps/core/views/what_if_together.py:48-212 | the position loop returns what RunFrom gives |
| WhatIfTogether.Run | project/apps/core/views/what_if_together.py:38-212 | the view returns RunFrom over its Selection (first-candle entries within the start bounds) of the Position table |
| AlgorithmInput.Decide | project/apps/core/management/commands/create_algorithm_input.py:84-153 | a candle is a loss exactly when it reaches the stop, and a win exactly when it does not but closes past the target |
| AlgorithmInput.FirstVerdictIsFirstDecision | project/apps/core/management/commands/create_algorithm_input.py:82-153 | the verdict is that of the first deciding candle, and there is none exactly when no candle decides |
| AlgorithmInput.PositionOutcomeBounds | project/apps/core/management/commands/create_algorithm_input.py:46-163 | every counter is 0 or 1, at most one of win and loss is counted, three-month <= six-month <= total, and a verdict exists exactly when some window candle decides |
| AlgorithmInput.CalculatePositionOutcome | project/apps/core/management/commands/create_algorithm_input.py:46-163 | the candle loop returns PositionOutcome over min(start + 14 days, until_date) |
| AlgorithmInput.HourPositions | project/apps/core/management/commands/create_algorithm_input.py:179-198 | an hour's positions are exactly those in the filter (amount >= 2000, 5-minute timeframe, last 180 days, that hour, Monday to Friday, that tag with its confirmation counts, not entered on the first candle) |
| AlgorithmInput.WorkingDays | project/apps/core/management/commands/create_algorithm_input.py:191 | Django weekdays 2..6 are exactly Python weekdays 0..4 |
| AlgorithmInput.SumOutcomesBounds | project/apps/core/management/commands/create_algorithm_input.py:206-220 | the hour's win and loss counts add up to at most its number of positions, with three-month <= six-month <= total |
| AlgorithmInput.PairsScoreAlike | project/apps/core/management/commands/create_algorithm_input.py:15-22 | every 5R pair has a nonzero sl and scores 4.95*w - 1.1*l R per window |
| AlgorithmInput.Score | project/apps/core/management/commands/create_algorithm_input.py:230-252 | the hour score is the six-month R's plus twice the three-month R's |
| AlgorithmInput.HourScore | project/apps/core/management/commands/create_algorithm_input.py:176-254 | a row carries its hour and at most as many trades as the hour has positions |
| AlgorithmInput.SumHour | project/apps/core/management/commands/create_algorithm_input.py:206-220 | the summation loop returns SumOutcomes |
| AlgorithmInput.RunAlgorithmInput | project/apps/core/management/commands/create_algorithm_input.py:165-255 | 24 rows, row h being HourScore for hour h |
| AlgorithmInput.MaxScore | project/apps/core/management/commands/create_algorithm_input.py:321-323 | the best score is one of the scores and at least each of them |
| AlgorithmInput.FirstMaxUnique | project/apps/core/management/commands/create_algorithm_input.py:329-337 | there is only one first maximum |
| AlgorithmInput.FirstMaxIndex | project/apps/core/management/commands/create_algorithm_input.py:329-337 | the chosen index is the first pair attaining the maximum |
| AlgorithmInput.BestPair | project/apps/core/management/commands/create_algorithm_input.py:329-337 | the strict running-maximum loop picks the first pair attaining the maximum |
| AlgorithmInput.Weight | project/apps/core/management/commands/create_algorithm_input.py:324-327 | the weight lies in [0, 1], is positive exactly when the best score is >= 0.1, and is 1 exactly when it is >= 60 |
| AlgorithmInput.WeightMonotone | project/apps/core/management/commands/create_algorithm_input.py:324-327 | a higher best score never gets a lower weight |
| AlgorithmInput.RowOf | project/apps/core/management/commands/create_algorithm_input.py:320-350 | a row trades exactly when some score is >= 0.1; then it carries the weight and (tp, sl) of the first best pair, otherwise no weight, tp or sl |
| AlgorithmInput.WriteRow | project/apps/core/management/commands/create_algorithm_input.py:320-352 | the written row is RowOf |
| AlgorithmInput.ScoresAt | project/apps/core/management/commands/create_algorithm_input.py:270-290 | an hour has one score per pair |
| AlgorithmInput.ScoreTables | project/apps/core/management/commands/create_algorithm_input.py:270-290 | one 24-row table per pair, each row the HourScore of its hour |
| AlgorithmInput.HourRow | project/apps/core/management/commands/create_algorithm_input.py:320-352 | the row written for an hour is RowOf over that hour's scores, one per pair, read from the per-pair tables |
| AlgorithmInput.Handle | project/apps/core/management/commands/create_algorithm_input.py:257-352 | the file gets 24 rows, row h being RowOf over hour h's scores |
| Scans.FirstConfirmation | project/apps/core/management/commands/create_new_idea_positions.py:71-89 | the found candle is at its 1-based index, confirms, and no earlier candle does; none is found exactly when no candle confirms |
| Scans.ScanConfirmation | project/apps/core/management/commands/create_new_idea_positions.py:71-89 | the enumerate-and-break loop returns FirstConfirmation |
| Scans.FirstBreakout | project/apps/core/management/commands/create_new_idea_positions.py:95-131 | the found candle is the first whose close leaves [lower, upper], upward exactly when above upper; none is found exactly when every close stays inside |
| Scans.ScanBreakout | project/apps/core/management/commands/create_new_idea_positions.py:95-131 | the enumerate-and-break loop returns FirstBreakout |
| WhatIfAlgorithm.Fee | project/apps/core/views/what_if_algorithm.py:27-28 | a fee is non-negative for non-negative size, price and rate, and 0 when any is 0 |
| WhatIfAlgorithm.RowForHourIsLastMatch | project/apps/core/views/what_if_algorithm.py:223-236 | the hour's (trade, tp, weight) is that of the last input row for the hour, or (false, 0, 0) when there is none |
| WhatIfAlgorithm.ScanAlgorithmInput | project/apps/core/views/what_if_algorithm.py:223-236 | the row loop returns RowForHour |
| WhatIfAlgorithm.ProcessTp | project/apps/core/views/what_if_algorithm.py:56-98 | an off or finished tier returns flag and amount unchanged; it finishes exactly when the candle's high (a "long" tier) or low (a "short" tier) reaches the tier's level; a LONG fire keeps amount*(1 - pct/100), a SHORT fire removes pct% of the original size |
| WhatIfAlgorithm.CandleRsiBounds | project/apps/core/views/what_if_algorithm.py:609-625 | the RSI lies in [0, 100], is 100 when no candle fell and below 100 otherwise |
| WhatIfAlgorithm.AlgorithmRsi | project/apps/core/views/what_if_algorithm.py:609-625 | the gains and losses loop returns CandleRsi |
| WhatIfAlgorithm.RsiScaleOut | project/apps/core/views/what_if_algorithm.py:596-646 | the scale-out changes only the open amount, the P&L and the RSI buffer |
| WhatIfAlgorithm.RsiScaleOutLong | project/apps/core/views/what_if_algorithm.py:628-637 | a LONG sells only when due, at RSI >= upper and with something open, then sells pct% of the open amount, and the amount stays >= 0 for pct in [0, 100] |
| WhatIfAlgorithm.RsiScaleOutShort | project/apps/core/views/what_if_algorithm.py:638-646 | a SHORT sells only when due, at RSI <= lower and with something open, then sells pct% of the open amount, and the amount stays >= 0 for pct in [0, 100] |
| WhatIfAlgorithm.Step | project/apps/core/views/what_if_algorithm.py:300-646 | a candle keeps the stop distance at +1 or -1 |
| WhatIfAlgorithm.TrailingPreemptsStopLoss | project/apps/core/views/what_if_algorithm.py:303-363 | with the trailing stop on, no candle ends in the fixed stop-loss exit |
| WhatIfAlgorithm.Tiers | project/apps/core/views/what_if_algorithm.py:365-423 | the stop move and the four tiers leave the position open, with its entry, size and trailing stop unchanged |
| WhatIfAlgorithm.ExitBySideRules | project/apps/core/views/what_if_algorithm.py:300-646 | a candle that closes the position closes it by the side's own rules, before any RSI scale-out |
| WhatIfAlgorithm.LongStopFigures | project/apps/core/views/what_if_algorithm.py:310-363 | a LONG trailing exit closes at the trailing price and a fixed stop at entry - sl%, each touched by the low, booking the price loss on the open amount and a market fee (0.06%) on amount * closing price |
| WhatIfAlgorithm.LongTakeProfitFigures | project/apps/core/views/what_if_algorithm.py:365-448 | a LONG take-profit exit is the final take-profit applied to what the trailing move, the stop move and the tiers left open |
| WhatIfAlgorithm.ShortStopFigures | project/apps/core/views/what_if_algorithm.py:460-510 | a SHORT trailing exit closes at the trailing price and a fixed stop at entry + sl%, each touched by the high, booking the price loss and a market fee on amount * closing price |
| WhatIfAlgorithm.ShortTakeProfitFigures | project/apps/core/views/what_if_algorithm.py:511-592 | a SHORT take-profit exit is the final take-profit applied to what the trailing move, the stop move and the tiers left open |
| WhatIfAlgorithm.TakeProfitFigures | project/apps/core/views/what_if_algorithm.py:424-592 | the final take-profit closes at entry + tp% when the high reaches it (LONG) or entry - tp% when the low does (SHORT), gains tp% of the entry on the open amount and pays the limit fee (0.02%) on amount * entry (LONG) or amount * closing price (SHORT); otherwise the position stays open unchanged |
| WhatIfAlgorithm.StopExitTouchesNoTier | project/apps/core/views/what_if_algorithm.py:303-363 | a stop exit leaves sl, the open amount, the flip flag and the four tier flags as they were |
| WhatIfAlgorithm.StepRatchets | project/apps/core/views/what_if_algorithm.py:303-308 | a candle never lowers a LONG's trailing stop and never raises a SHORT's |
| WhatIfAlgorithm.StepOneShot | project/apps/core/views/what_if_algorithm.py:365-422 | within a candle the tier flags only rise and sl changes only by the negation that disarms the flip |
| WhatIfAlgorithm.LongOneShot | project/apps/core/views/what_if_algorithm.py:365-422 | the one-shot rule for the LONG rules |
| WhatIfAlgorithm.ShortOneShot | project/apps/core/views/what_if_algorithm.py:511-570 | the one-shot rule for the SHORT rules |
| WhatIfAlgorithm.Replay | project/apps/core/views/what_if_algorithm.py:298-646 | a replay keeps the stop distance at +1 or -1 |
| WhatIfAlgorithm.ExitIgnoresLaterCandles | project/apps/core/views/what_if_algorithm.py:298-594 | once a position exits, later candles change nothing |
| WhatIfAlgorithm.ReplayFlipsAtMostOnce | project/apps/core/views/what_if_algorithm.py:365-370 | a replay negates sl at most once and only while armed, and the trailing stop only ratchets |
| WhatIfAlgorithm.ReplayTierFlagsOnlyRise | project/apps/core/views/what_if_algorithm.py:251-254 | over a replay each tier flag only goes from unset to set, so each tier fires at most once per position |
| WhatIfAlgorithm.ReplayCandles | project/apps/core/views/what_if_algorithm.py:298-646 | the candle loop returns what Replay gives |
| WhatIfAlgorithm.ProcessPositionWhatIf | project/apps/core/views/what_if_algorithm.py:31-53 | a return > 0 is a win and anything else a loss; wins+losses grows by one, the total by the return, the streak records the outcome, the position is prepended and returns and dates grow by one |
| WhatIfAlgorithm.Opening | project/apps/core/views/what_if_algorithm.py:251-282 | entry is the shifted first open, size * sl * entry = basis * percentage_per_trade * weight, flags unset, and a limit fee is charged |
| WhatIfAlgorithm.FlippedStopNegatesSize | project/apps/core/views/what_if_algorithm.py:264-271 | after a carried-over flip (sl = -1) the next position's size is negative; with sl = 1 it is positive |
| WhatIfAlgorithm.PositionStep | project/apps/core/views/what_if_algorithm.py:195-646 | a position keeps the stop distance at +1 or -1 |
| WhatIfAlgorithm.OverlapSkipsPosition | project/apps/core/views/what_if_algorithm.py:284-295 | with no_overlap, a position whose first candle precedes its side's last exit is skipped with no state change |
| WhatIfAlgorithm.SettleEffect | project/apps/core/views/what_if_algorithm.py:31-53 | settling changes only sl, or records one trade: one more win or loss, the total by its P&L, one list entry, total and date, and the side's last exit time |
| WhatIfAlgorithm.PositionStepEffect | project/apps/core/views/what_if_algorithm.py:195-646 | a position changes at most sl, or records exactly one trade as in SettleEffect |
| WhatIfAlgorithm.HandlePosition | project/apps/core/views/what_if_algorithm.py:196-646 | one loop iteration changes the state as PositionStep says |
| WhatIfAlgorithm.SettlePosition | project/apps/core/views/what_if_algorithm.py:31-53 | the method's new state is that of Settle |
| WhatIfAlgorithm.Selection | project/apps/core/views/what_if_algorithm.py:121-158 | the view replays exactly the positions of an allowed candles-before-entry count, live or reversed with an allowed confirmation count, on 5-minute candles, liquidated Monday to Friday at 2-4 am or 2-4 pm, and inside every strategy, date and liquidation-amount bound the form sets; so every selected position is live or reversed and liquidated on Python week days 0 to 4 |
| WhatIfAlgorithm.SelectionByLiquidation | project/apps/core/views/what_if_algorithm.py:121-160 | a Position table in liquidation order gives a selection in liquidation order |
| WhatIfAlgorithm.Run | project/apps/core/views/what_if_algorithm.py:121-646 | the view returns RunFrom over its selection of the Position table |
| WhatIfAlgorithm.Summary | project/apps/core/views/what_if_algorithm.py:704-734 | nr_of_trades = wins + losses, and the ratio lies in [0, 100], equal to 100 exactly when there are wins and no losses |
| RsiPositions.Gains | project/apps/core/management/commands/create_rsi_positions.py:15-20 | the sum of the rising changes is non-negative |
| RsiPositions.Losses | project/apps/core/management/commands/create_rsi_positions.py:15-20 | the sum of the falling changes is non-negative |
| RsiPositions.Rsi | project/apps/core/management/commands/create_rsi_positions.py:21-25 | the RSI lies in [0, 100] and is 100 exactly when no change over the period is negative |
| RsiPositions.CalculateRsi | project/apps/core/management/commands/create_rsi_positions.py:10-25 | the loop over the last `period` changes sums the rises and the falls and returns the RSI of those sums |
| RsiPositions.NetChange | project/apps/core/management/commands/create_rsi_positions.py:15-20 | gains minus losses is the net close change over the period, so zero changes add to neither sum |
| RsiPositions.SumsReadLastCloses | project/apps/core/management/commands/create_rsi_positions.py:15-16 | the sums read only the last period+1 closes |
| RsiPositions.RsiReadsLastCloses | project/apps/core/management/commands/create_rsi_positions.py:10-16 | two windows with the same last period+1 closes have the same RSI |
| RsiPositions.FallingCloseLowersRsi | project/apps/core/management/commands/create_rsi_positions.py:17-22 | the losses are 0 exactly when no close fell |
| RsiPositions.Confirmation | project/apps/core/management/commands/create_rsi_positions.py:70-100 | a signal has one or two confirming candles and only comes from an RSI of at least 70 or at most 30 |
| RsiPositions.Entered | project/apps/core/management/commands/create_rsi_positions.py:107-159 | LONG on an upward break, SHORT on a downward one, "rsi_live" exactly when trading against the extreme, started 5 minutes after the entering candle, on the 5-minute timeframe |
| RsiPositions.NeutralRsiCreatesNothing | project/apps/core/management/commands/create_rsi_positions.py:65-68 | an RSI within [30, 70] creates nothing |
| RsiPositions.CandidateShape | project/apps/core/management/commands/create_rsi_positions.py:65-159 | a created position has an extreme RSI, its confirmation, and an entry on the first later close leaving the 0.5% band around the reference close, every earlier close inside it |
| RsiPositions.CreatedUpTo | project/apps/core/management/commands/create_rsi_positions.py:54-63 | the first 16 candles only fill the buffer, and each later candle creates at most one position |
| RsiPositions.Signal | project/apps/core/management/commands/create_rsi_positions.py:63-159 | the signal test and entry scan on a full buffer create exactly CandidateFrom of the buffer and the current candle |
| RsiPositions.WindowStep | project/apps/core/management/commands/create_rsi_positions.py:56-62 | the buffer is still filling exactly while fewer than 16 candles were seen; once full, trimming it to its last 16 leaves the 16 candles before the current one |
| RsiPositions.Fill | project/apps/core/management/commands/create_rsi_positions.py:56-58 | while the buffer fills, a candle is only buffered and creates nothing |
| RsiPositions.Advance | project/apps/core/management/commands/create_rsi_positions.py:61-160 | once the buffer is full, a candle appends what the signal on the last 16 candles creates |
| RsiPositions.Step | project/apps/core/management/commands/create_rsi_positions.py:54-160 | one iteration takes the walk state before candle i to the state after it |
| RsiPositions.Handle | project/apps/core/management/commands/create_rsi_positions.py:45-160 | the command creates CreatedUpTo over all candles, the buffer always holding the 16 candles before the current one |
| CreatePositions.SumClosesBounds | project/apps/core/management/commands/create_positions.py:70-73 | the sum of closes lies between count*lo and count*hi |
| CreatePositions.Ma50Bounds | project/apps/core/management/commands/create_positions.py:64-73 | MA50 exists exactly when there are at least 50 earlier candles, and then lies within the range of their closes |
| CreatePositions.Entered | project/apps/core/management/commands/create_positions.py:143-195 | a "reversed" position on the given side, started 5 minutes after the trigger, entered 0.01% better than its close, with the trigger's 1-based index and the group's totals, on the 5-minute timeframe |
| CreatePositions.EnteredShape | project/apps/core/management/commands/create_positions.py:137-195 | an entry opposes the liquidation, on the first close of the following day leaving the +-d% band around the confirmation close, every earlier close inside it |
| CreatePositions.IndexErrorCase | project/apps/core/management/commands/create_positions.py:89-112 | the command crashes exactly on large enough groups with a liquidation candle whose volume window holds one candle |
| CreatePositions.VolumeWindowHoldsLiquidationCandle | project/apps/core/management/commands/create_positions.py:79-100 | when the liquidation candle exists the volume window holds it |
| CreatePositions.CreatedShape | project/apps/core/management/commands/create_positions.py:75-195 | a created position comes from a group of at least 100 with a volume rise, confirmed by the first later candle closing beyond the liquidation candle, against the liquidation's side, with MA50 and the liquidation close |
| CreatePositions.Through | project/apps/core/management/commands/create_positions.py:62-195 | at most one position per liquidation group |
| CreatePositions.CreatedOppose | project/apps/core/management/commands/create_positions.py:62-195 | every written position is "reversed" and comes from one processed group, against its side |
| CreatePositions.CrashIsFinal | project/apps/core/management/commands/create_positions.py:102-112 | after the IndexError nothing more is written |
| CreatePositions.ProcessLiquidation | project/apps/core/management/commands/create_positions.py:63-195 | one iteration computes ForLiquidation |
| CreatePositions.Step | project/apps/core/management/commands/create_positions.py:63-195 | processing group i after i groups ran without a crash gives Through over i + 1 groups (crashed on an IndexError, one position longer on a creation) |
| CreatePositions.Handle | project/apps/core/management/commands/create_positions.py:38-195 | the command computes Through over all groups |
| NewIdeaPositions.Entered | project/apps/core/management/commands/create_new_idea_positions.py:96-131 | the breakout's side, "live" exactly when it is the liquidation's side, started 5 minutes after the trigger, entered 0.01% better than its close, candles_before_entry the confirmation's index, on the 5-minute timeframe |
| NewIdeaPositions.EnteredShape | project/apps/core/management/commands/create_new_idea_positions.py:91-131 | the entry is the first later close leaving the 0.5% band around the confirmation close, every earlier close inside it |
| NewIdeaPositions.CreatedShape | project/apps/core/management/commands/create_new_idea_positions.py:48-131 | a created position comes from a group of at least 100, confirmed by the first candle of the following hour closing beyond the liquidation candle, "live" exactly on the liquidation's side |
| NewIdeaPositions.Through | project/apps/core/management/commands/create_new_idea_positions.py:48-131 | at most one position per liquidation group |
| NewIdeaPositions.TagRule | project/apps/core/management/commands/create_new_idea_positions.py:96-131 | the position a group yields carries its time and its live/reversed tag |
| NewIdeaPositions.CollectTagged | project/apps/core/management/commands/create_new_idea_positions.py:48-131 | a per-group step that tags what it yields for its group writes only positions tagged for one of the groups it went through |
| NewIdeaPositions.CreatedFromGroups | project/apps/core/management/commands/create_new_idea_positions.py:48-131 | every written position is tagged (time and live/reversed) for one of the processed groups |
| NewIdeaPositions.ScanEntry | project/apps/core/management/commands/create_new_idea_positions.py:91-131 | the entry loop after a confirmation computes EnterAfter |
| NewIdeaPositions.ProcessLiquidation | project/apps/core/management/commands/create_new_idea_positions.py:48-131 | one iteration computes ForLiquidation |
| NewIdeaPositions.Handle | project/apps/core/management/commands/create_new_idea_positions.py:27-131 | the command computes Through over all groups |

## Left out

- Rounding: every `round(x, n)` is the identity here. Prices, sizes, scores and weights are exact reals.
- AlgorithmInput.Weight: "positive exactly when the best score is >= 0.1" holds for exact reals only. With the real `round(..., 2)` of create_algorithm_input.py:324-327 a best score in [0.1, 0.2) gives weight 0.
- The database: queries are filters over an input candle store and input position sequences. `get_or_create` deduplication, `save`, and every write to a stored position are not modelled.
- The `PositionFilterSet` the views declare is not modelled. The queries the code runs are: `WhatIf.Selection`, `WhatIfPerHour.AtHour`, `WhatIfTogether.Selection`, `WhatIfAlgorithm.Selection` and `AlgorithmInput.HourPositions`.
- `order_by` is not modelled as a sort. The Position table is an input already in the query's order: by start for `what_if.py`, `what_if_per_hour.py` and `what_if_together.py`, by liquidation time for `what_if_algorithm.py` and `create_algorithm_input.py`. `WhatIf.SelectionByStart`, `WhatIfPerHour.AtHourByStart`, `WhatIfTogether.SelectionByStart` and `WhatIfAlgorithm.SelectionByLiquidation` show that a selection keeps that order. Ties between equal keys keep the table's order, where the database leaves it open.
- `distinct()` is not modelled: the input table holds each row once.
- The CSV lookup of `what_if_algorithm.py`, with its file-name fallbacks, is a function parameter taking (liquidation day, tag) to the file's rows. Writing and merging the CSV files and the cache of `create_algorithm_input.py` are not modelled.
- Wall-clock defaults (`timezone.now()`, `datetime.now()`) are parameters.
- Plotting, image encoding, the random colour, `reward_per_trade` (a fractional power) and the `f"$ {…:,}"` formatting of `what_if_returns` are not modelled.
- The mutated Position objects: a view's changes to `side`, `strategy_type`, `entry_price`, `amount` and `closing_price` are modelled on values (the traded side, opening book and trade record), not as aliasing updates of shared objects.
- NewIdeaPositions.Entered: the command does not set `confirmation_candles`, `moving_average_50` or `liquidation_closing_price`. Their database defaults are not modelled, and the model writes 0 and None in their place.
- CreatePositions.Entered: the `symbol` column (create_positions.py:157/182 writes the `--symbol` option with "T" appended) is not a field of `Market.Position`; no view or command of the model reads it.
- The IntegerField truncation of `liquidation_amount` on storage is not modelled; amounts stay real.
- Console output (`print`) is not modelled.
- AlgorithmInput.ScoresAt: only the length of an hour's score list is stated; what each score is follows from ScoreTables and HourScore.
