/**
 * The momentum analysis shared by `_calculate_psychological_metrics` and the
 * older `analyze_momentum`: the win/loss streak state machine over the results
 * in date order, and the recovery count of games that follow a loss.
 */
module Streaks {
  import opened Tally
  import opened GameParser

  /** The number of consecutive `r` results ending at index `e`; 0 when `s[e]` is not `r`. */
  function RunEndingAt(s: seq<ResultType>, e: nat, r: ResultType): (n: nat)
    requires e < |s|
    ensures n <= e + 1
    ensures n > 0 <==> s[e] == r
  {
    if s[e] != r then 0 else if e == 0 then 1 else 1 + RunEndingAt(s, e - 1, r)
  }

  /** Every result in `s[a..b]` is `r`. */
  predicate AllAre(s: seq<ResultType>, a: nat, b: nat, r: ResultType)
    requires a <= b <= |s|
  {
    forall k :: a <= k < b ==> s[k] == r
  }

  /**
   * The largest streak the loop records for `r` over the first `n` results:
   * a streak is recorded when it ends at index 1 or later, so the first
   * game on its own never counts.
   */
  function LongestRecorded(s: seq<ResultType>, r: ResultType, n: nat): nat
    requires n <= |s|
  {
    if n <= 1 then 0
    else
      var best := LongestRecorded(s, r, n - 1);
      var run := RunEndingAt(s, n - 1, r);
      if run > best then run else best
  }

  /** The run ending at `e` is a block of `r`, preceded by the start or by a different result. */
  lemma {:induction false} RunIsBlock(s: seq<ResultType>, e: nat, r: ResultType)
    requires e < |s| && s[e] == r
    ensures AllAre(s, e + 1 - RunEndingAt(s, e, r), e + 1, r)
    ensures e + 1 - RunEndingAt(s, e, r) == 0 || s[e - RunEndingAt(s, e, r)] != r
  {
    if e > 0 && s[e - 1] == r {
      RunIsBlock(s, e - 1, r);
    }
  }

  /** Any block of `r` ending at `e` is no longer than the run ending at `e`. */
  lemma {:induction false} BlockWithinRun(s: seq<ResultType>, a: nat, e: nat, r: ResultType)
    requires a <= e < |s| && AllAre(s, a, e + 1, r)
    ensures e + 1 - a <= RunEndingAt(s, e, r)
  {
    if a < e {
      BlockWithinRun(s, a, e - 1, r);
    }
  }

  /** Results `a` to `b - 1` are a streak of `r` the loop records: it ends at index 1 or later. */
  predicate RecordedStreak(s: seq<ResultType>, a: nat, b: nat, r: ResultType) {
    a < b <= |s| && 2 <= b && AllAre(s, a, b, r)
  }

  /** Some recorded streak of `r` in `results` is `len` long. */
  predicate StreakOfLength(results: seq<ResultType>, r: ResultType, len: nat) {
    exists a: nat, b: nat :: b <= |results| && RecordedStreak(results, a, b, r) && b - a == len
  }

  /** No recorded streak among the first `n` results is longer than `LongestRecorded`. */
  lemma {:induction false} LongestBoundsStreaks(s: seq<ResultType>, r: ResultType, n: nat, a: nat, b: nat)
    requires n <= |s| && b <= n && RecordedStreak(s, a, b, r)
    ensures b - a <= LongestRecorded(s, r, n)
  {
    if b < n {
      LongestBoundsStreaks(s, r, n - 1, a, b);
    } else {
      BlockWithinRun(s, a, b - 1, r);
    }
  }

  /** A positive `LongestRecorded` is the length of a recorded streak. */
  lemma {:induction false} LongestIsAttained(s: seq<ResultType>, r: ResultType, n: nat)
    requires n <= |s| && LongestRecorded(s, r, n) > 0
    ensures exists a: nat, b: nat :: b <= n && RecordedStreak(s, a, b, r) && b - a == LongestRecorded(s, r, n)
  {
    var best := LongestRecorded(s, r, n - 1);
    var run := RunEndingAt(s, n - 1, r);
    if run > best {
      RunIsBlock(s, n - 1, r);
      assert RecordedStreak(s, n - run, n, r);
    } else {
      LongestIsAttained(s, r, n - 1);
      var a: nat, b: nat :| b <= n - 1 && RecordedStreak(s, a, b, r) && b - a == best;
      assert b <= n && RecordedStreak(s, a, b, r) && b - a == LongestRecorded(s, r, n);
    }
  }

  /**
   * The streak loop: `current_streak` is the signed length of the run the
   * previous result ended (positive for wins, negative for losses), draws
   * leave it alone, and each win or loss after the first game raises the
   * matching maximum.
   */
  method MaxStreaks(results: seq<ResultType>) returns (maxWin: nat, maxLoss: nat)
    ensures maxWin == LongestRecorded(results, Win, |results|)
    ensures maxLoss == LongestRecorded(results, Loss, |results|)
  {
    var current: int := 0;
    maxWin, maxLoss := 0, 0;
    for i := 0 to |results|
      invariant maxWin == LongestRecorded(results, Win, i)
      invariant maxLoss == LongestRecorded(results, Loss, i)
      invariant 0 < i && results[i - 1] == Win ==> current == RunEndingAt(results, i - 1, Win)
      invariant 0 < i && results[i - 1] == Loss ==> current == -(RunEndingAt(results, i - 1, Loss) as int)
    {
      if i == 0 {
        current := if results[0] == Win then 1 else -1;
      } else {
        var previous := results[i - 1];
        var result := results[i];
        if result == Win {
          if previous == Win {
            current := current + 1;
          } else {
            current := 1;
          }
          if current > maxWin {
            maxWin := current;
          }
        } else if result == Loss {
          if previous == Loss {
            current := current - 1;
          } else {
            current := -1;
          }
          if -current > maxLoss {
            maxLoss := -current;
          }
        }
      }
    }
  }

  /** The number of games that follow a loss: indices `i >= 1` with `s[i - 1]` a loss. */
  function GamesAfterLoss(s: seq<ResultType>): nat {
    if |s| < 2 then 0
    else GamesAfterLoss(s[..|s| - 1]) + (if s[|s| - 2] == Loss then 1 else 0)
  }

  /** The number of wins among the games that follow a loss. */
  function WinsAfterLoss(s: seq<ResultType>): nat {
    if |s| < 2 then 0
    else WinsAfterLoss(s[..|s| - 1]) + (if s[|s| - 2] == Loss && s[|s| - 1] == Win then 1 else 0)
  }

  /** A loss result. */
  predicate IsLossResult(r: ResultType) {
    r == Loss
  }

  /** The games after a loss are as many as the losses before the last game, and the wins among them no more. */
  lemma {:induction false} AfterLossCounts(s: seq<ResultType>)
    ensures s != [] ==> GamesAfterLoss(s) == Count(s[..|s| - 1], IsLossResult)
    ensures WinsAfterLoss(s) <= GamesAfterLoss(s)
  {
    if |s| >= 2 {
      var init := s[..|s| - 1];
      AfterLossCounts(init);
      assert init[..|init| - 1] == s[..|s| - 2];
    }
  }

  /** The recovery loop: how many games follow a loss, and how many of those are wins. */
  method Recovery(results: seq<ResultType>) returns (gamesAfterLoss: nat, winsAfterLoss: nat)
    ensures gamesAfterLoss == GamesAfterLoss(results)
    ensures winsAfterLoss == WinsAfterLoss(results)
  {
    gamesAfterLoss, winsAfterLoss := 0, 0;
    if |results| < 2 {
      return;
    }
    for i := 1 to |results|
      invariant gamesAfterLoss == GamesAfterLoss(results[..i])
      invariant winsAfterLoss == WinsAfterLoss(results[..i])
    {
      assert results[..i + 1][..i] == results[..i];
      if results[i - 1] == Loss {
        gamesAfterLoss := gamesAfterLoss + 1;
        if results[i] == Win {
          winsAfterLoss := winsAfterLoss + 1;
        }
      }
    }
    assert results[..|results|] == results;
  }

  /** `recovery_rate`: the percentage of wins among games that follow a loss, 0 when no game does. */
  function RecoveryRate(results: seq<ResultType>): (rate: real)
    ensures GamesAfterLoss(results) == 0 ==> rate == 0.0
    ensures 0.0 <= rate <= 100.0
  {
    AfterLossCounts(results);
    Percent(WinsAfterLoss(results), GamesAfterLoss(results))
  }

  /** The longest recorded run of `r`, when positive, is the length of some recorded run. */
  lemma LongestHasLength(results: seq<ResultType>, r: ResultType)
    ensures LongestRecorded(results, r, |results|) > 0 ==> StreakOfLength(results, r, LongestRecorded(results, r, |results|))
  {
    if LongestRecorded(results, r, |results|) > 0 {
      LongestIsAttained(results, r, |results|);
    }
  }
}
