/** The starting capital of every what-if run and the win/loss streak tracker. */
module ViewHelpers {

  const INITIAL_CAPITAL: real := 10000.0

  /** The four counters of a `WinStreak`, as a value. */
  datatype Streak = Streak(longestWin: nat, longestLoss: nat, currentWin: nat, currentLoss: nat)

  /** A fresh tracker: no streak at all. */
  const NoStreak: Streak := Streak(0, 0, 0, 0)

  /** The counters after `record_win`. */
  function AfterWin(s: Streak): Streak
  {
    var current := s.currentWin + 1;
    Streak(if current > s.longestWin then current else s.longestWin, s.longestLoss, current, 0)
  }

  /** The counters after `record_loss`. */
  function AfterLoss(s: Streak): Streak
  {
    var current := s.currentLoss + 1;
    Streak(s.longestWin, if current > s.longestLoss then current else s.longestLoss, 0, current)
  }

  /** The counters after recording `outcomes` in order (true = win) on `s`. */
  function Record(s: Streak, outcomes: seq<bool>): Streak
    decreases |outcomes|
  {
    if outcomes == [] then s
    else
      var before := Record(s, outcomes[..|outcomes| - 1]);
      if outcomes[|outcomes| - 1] then AfterWin(before) else AfterLoss(before)
  }

  /** What every reachable tracker satisfies: each current streak is at most its
      longest, and at most one current streak is running. */
  ghost predicate Consistent(s: Streak)
  {
    s.currentWin <= s.longestWin && s.currentLoss <= s.longestLoss &&
    (s.currentWin == 0 || s.currentLoss == 0)
  }

  /** A win extends the win streak, ends the loss streak and raises the longest
      win streak to the current one; the longest loss streak is untouched. */
  lemma AfterWinSpec(s: Streak)
    ensures AfterWin(s).currentWin == s.currentWin + 1 && AfterWin(s).currentLoss == 0
    ensures AfterWin(s).longestWin >= s.longestWin && AfterWin(s).longestWin >= AfterWin(s).currentWin
    ensures AfterWin(s).longestWin == s.longestWin || AfterWin(s).longestWin == AfterWin(s).currentWin
    ensures AfterWin(s).longestLoss == s.longestLoss
  {
  }

  /** The mirror image of AfterWinSpec. */
  lemma AfterLossSpec(s: Streak)
    ensures AfterLoss(s).currentLoss == s.currentLoss + 1 && AfterLoss(s).currentWin == 0
    ensures AfterLoss(s).longestLoss >= s.longestLoss && AfterLoss(s).longestLoss >= AfterLoss(s).currentLoss
    ensures AfterLoss(s).longestLoss == s.longestLoss || AfterLoss(s).longestLoss == AfterLoss(s).currentLoss
    ensures AfterLoss(s).longestWin == s.longestWin
  {
  }

  /** Starting from a fresh tracker, every sequence of outcomes leaves a consistent one. */
  lemma {:induction false} RecordKeepsConsistent(s: Streak, outcomes: seq<bool>)
    requires Consistent(s)
    ensures Consistent(Record(s, outcomes))
    decreases |outcomes|
  {
    if outcomes != [] {
      RecordKeepsConsistent(s, outcomes[..|outcomes| - 1]);
    }
  }

  /** Longest streaks never decrease, whatever is recorded. */
  lemma {:induction false} LongestNeverDecrease(s: Streak, outcomes: seq<bool>)
    ensures Record(s, outcomes).longestWin >= s.longestWin
    ensures Record(s, outcomes).longestLoss >= s.longestLoss
    decreases |outcomes|
  {
    if outcomes != [] {
      LongestNeverDecrease(s, outcomes[..|outcomes| - 1]);
    }
  }

  /** A trailing run of k wins leaves a current win streak of at least k. */
  lemma {:induction false} CurrentWinIsTrailingRun(s: Streak, outcomes: seq<bool>, k: nat)
    requires k <= |outcomes|
    requires forall i :: |outcomes| - k <= i < |outcomes| ==> outcomes[i]
    ensures Record(s, outcomes).currentWin >= k
    decreases k
  {
    if k > 0 {
      var init := outcomes[..|outcomes| - 1];
      assert forall i :: |init| - (k - 1) <= i < |init| ==> init[i] == outcomes[i];
      CurrentWinIsTrailingRun(s, init, k - 1);
    }
  }

  /** W, W, L, W, W, W, L, L: longest win streak 3, longest loss streak 2, and the
      run ends inside a loss streak of 2. */
  lemma StreakExample()
    ensures Record(NoStreak, [true, true, false, true, true, true, false, false]) == Streak(3, 2, 0, 2)
  {
    var o := [true, true, false, true, true, true, false, false];
    assert o[..0] == [];
    assert Record(NoStreak, o[..1]) == Streak(1, 0, 1, 0) by { assert o[..1][..0] == o[..0]; }
    assert Record(NoStreak, o[..2]) == Streak(2, 0, 2, 0) by { assert o[..2][..1] == o[..1]; }
    assert Record(NoStreak, o[..3]) == Streak(2, 1, 0, 1) by { assert o[..3][..2] == o[..2]; }
    assert Record(NoStreak, o[..4]) == Streak(2, 1, 1, 0) by { assert o[..4][..3] == o[..3]; }
    assert Record(NoStreak, o[..5]) == Streak(2, 1, 2, 0) by { assert o[..5][..4] == o[..4]; }
    assert Record(NoStreak, o[..6]) == Streak(3, 1, 3, 0) by { assert o[..6][..5] == o[..5]; }
    assert Record(NoStreak, o[..7]) == Streak(3, 1, 0, 1) by { assert o[..7][..6] == o[..6]; }
    assert o[..8] == o;
    assert o[..8][..7] == o[..7];
  }

  /** The tracker object the views create once per run. */
  class WinStreak {
    var longestWinStreak: nat
    var longestLossStreak: nat
    var currentWinStreak: nat
    var currentLossStreak: nat

    function Value(): Streak
      reads this
    {
      Streak(longestWinStreak, longestLossStreak, currentWinStreak, currentLossStreak)
    }

    constructor ()
      ensures Value() == NoStreak
    {
      longestWinStreak, longestLossStreak := 0, 0;
      currentWinStreak, currentLossStreak := 0, 0;
    }

    method RecordWin()
      modifies this
      ensures Value() == AfterWin(old(Value()))
      ensures currentWinStreak == old(currentWinStreak) + 1 && currentLossStreak == 0
      ensures longestLossStreak == old(longestLossStreak)
    {
      currentWinStreak := currentWinStreak + 1;
      currentLossStreak := 0;
      if currentWinStreak > longestWinStreak {
        longestWinStreak := currentWinStreak;
      }
    }

    method RecordLoss()
      modifies this
      ensures Value() == AfterLoss(old(Value()))
      ensures currentLossStreak == old(currentLossStreak) + 1 && currentWinStreak == 0
      ensures longestWinStreak == old(longestWinStreak)
    {
      currentLossStreak := currentLossStreak + 1;
      currentWinStreak := 0;
      if currentLossStreak > longestLossStreak {
        longestLossStreak := currentLossStreak;
      }
    }
  }
}
