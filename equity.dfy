/** What the three what-if views share once positions close: the lists they
    fill (the position table, the running totals and their dates), the
    forward-filled daily equity curve and the win ratios. */
module Equity {
  import opened Market
  import opened ViewHelpers

  /** `object_list`, `returns` and `dates`: the lists one run appends to. */
  class Ledger {
    var objectList: seq<Trade>
    var totals: seq<real>
    var dates: seq<int>

    constructor ()
      ensures objectList == [] && totals == [] && dates == []
    {
      objectList, totals, dates := [], [], [];
    }

    /** `object_list.insert(0, position)`, `returns.append(total_returns)` and
        `dates.append(position.start)`: every close logs exactly one of each. */
    method Log(t: Trade, total: real)
      modifies this
      ensures objectList == [t] + old(objectList)
      ensures totals == old(totals) + [total]
      ensures dates == old(dates) + [t.position.start]
    {
      objectList := [t] + objectList;
      totals := totals + [total];
      dates := dates + [t.position.start];
    }
  }

  /** `{d.date(): r for d, r in zip(dates, returns)}`: a later write to the same
      day replaces an earlier one. */
  function DayTotals(dates: seq<int>, totals: seq<real>): map<int, real>
    requires |dates| == |totals|
    decreases |dates|
  {
    if dates == [] then map[]
    else
      var n := |dates| - 1;
      DayTotals(dates[..n], totals[..n])[DayOf(dates[n]) := totals[n]]
  }

  /** A day has a total exactly when some date falls on it, and its total is the
      one recorded last on that day. */
  lemma {:induction false} DayTotalsLastWrite(dates: seq<int>, totals: seq<real>, j: int)
    requires |dates| == |totals| && 0 <= j < |dates|
    requires forall i :: j < i < |dates| ==> DayOf(dates[i]) != DayOf(dates[j])
    ensures DayOf(dates[j]) in DayTotals(dates, totals)
    ensures DayTotals(dates, totals)[DayOf(dates[j])] == totals[j]
    decreases |dates|
  {
    var n := |dates| - 1;
    if j < n {
      DayTotalsLastWrite(dates[..n], totals[..n], j);
    }
  }

  /** Every key of the day map is the day of some recorded date. */
  lemma {:induction false} DayTotalsKeys(dates: seq<int>, totals: seq<real>, d: int)
    requires |dates| == |totals|
    requires d in DayTotals(dates, totals)
    ensures exists j :: 0 <= j < |dates| && DayOf(dates[j]) == d
    decreases |dates|
  {
    var n := |dates| - 1;
    if DayOf(dates[n]) != d {
      DayTotalsKeys(dates[..n], totals[..n], d);
      var j :| 0 <= j < n && DayOf(dates[..n][j]) == d;
      assert DayOf(dates[j]) == d;
    }
  }

  /** The latest total recorded on a day in `from..day`, or INITIAL_CAPITAL when there is none. */
  function LatestTotal(m: map<int, real>, from: int, day: int): real
    decreases day - from
  {
    if day < from then INITIAL_CAPITAL
    else if day in m then m[day]
    else LatestTotal(m, from, day - 1)
  }

  /** The forward fill of the equity curve: one point per calendar day from the
      day of the first date to the day of the last one (from `today` to `today`
      when nothing closed), each carrying the latest total recorded on or before
      that day and INITIAL_CAPITAL before the first record. */
  method ForwardFill(dates: seq<int>, totals: seq<real>, today: int) returns (dateRange: seq<int>, filled: seq<real>)
    requires |dates| == |totals|
    ensures var first := if dates == [] then DayOf(today) else DayOf(dates[0]);
            var end := if dates == [] then DayOf(today) else DayOf(dates[|dates| - 1]);
            && |dateRange| == |filled| == (if end < first then 0 else end - first + 1)
            && (forall k :: 0 <= k < |dateRange| ==> dateRange[k] == first + k)
            && (forall k :: 0 <= k < |filled| ==> filled[k] == LatestTotal(DayTotals(dates, totals), first, first + k))
  {
    var currentDate := if dates == [] then DayOf(today) else DayOf(dates[0]);
    var endDate := if dates == [] then DayOf(today) else DayOf(dates[|dates| - 1]);
    var returnsDict := DayTotals(dates, totals);
    var lastReturn := INITIAL_CAPITAL;
    ghost var first := currentDate;
    dateRange, filled := [], [];
    while currentDate <= endDate
      invariant first <= currentDate
      invariant currentDate <= endDate + 1 || currentDate == first
      invariant |dateRange| == |filled| == currentDate - first
      invariant forall k :: 0 <= k < |dateRange| ==> dateRange[k] == first + k
      invariant forall k :: 0 <= k < |filled| ==> filled[k] == LatestTotal(returnsDict, first, first + k)
      invariant lastReturn == LatestTotal(returnsDict, first, currentDate - 1)
      decreases endDate - currentDate
    {
      dateRange := dateRange + [currentDate];
      if currentDate in returnsDict {
        lastReturn := returnsDict[currentDate];
      }
      filled := filled + [lastReturn];
      currentDate := currentDate + 1;
    }
  }

  /** `wins / (wins + losses) if wins and losses else 0`. */
  function WinRatio(wins: nat, losses: nat): (r: real)
    ensures wins > 0 && losses > 0 ==> 0.0 < r < 1.0 && r * ((wins + losses) as real) == wins as real
    ensures wins == 0 || losses == 0 ==> r == 0.0
  {
    if wins > 0 && losses > 0 then (wins as real) / ((wins + losses) as real) else 0.0
  }

  /** `wins / (wins + losses) * 100 if wins else 0`: a percentage, 100 exactly
      when there were wins and no losses. */
  function WinPercentage(wins: nat, losses: nat): (r: real)
    ensures 0.0 <= r <= 100.0
    ensures r == 100.0 <==> wins > 0 && losses == 0
    ensures wins > 0 ==> r * ((wins + losses) as real) == 100.0 * (wins as real)
  {
    if wins > 0 then
      var n := (wins + losses) as real;
      var q := (wins as real) / n;
      assert q * n == wins as real;
      assert q <= 1.0 by { assert wins as real <= n; }
      assert q == 1.0 <==> losses == 0 by {
        if losses > 0 { assert 1.0 * n > wins as real; }
      }
      q * 100.0
    else 0.0
  }
}
