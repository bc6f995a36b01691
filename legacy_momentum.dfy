/**
 * The momentum report of the older `ChessAnalyzer` in `main.py`
 * (`analyze_momentum`): streaks and recovery over the games in date order,
 * the best hours of play, and the mean win rate of short, medium and long
 * sessions, a session being the games of one local calendar day.
 */
module LegacyMomentum {
  import opened Wrappers
  import opened Tally
  import opened Grouping
  import opened GameParser
  import opened LegacyGame
  import opened LegacyStats
  import Streaks

  /** The sort key `date`. */
  predicate EarlierDate(a: Analysis, b: Analysis) { a.date < b.date }

  /** `date.hour`. */
  function HourKey(a: Analysis): nat { HourOf(a.date) }

  /** `date.date()`: the local calendar day of a game. */
  function DayKey(a: Analysis): int { DayOf(a.date) }

  /** An entry `(hour, win_rate, games)` of `best_hours`. */
  datatype HourLine = HourLine(hour: nat, winRate: real, games: nat)

  /** Fewest games an hour needs to be ranked. */
  const MinHourGames: nat := 5

  /** The counter of the games played at `hour`. */
  function HourCounter(gs: seq<Analysis>, hour: nat): WinCounter {
    Fold(Select(gs, HourKey, hour), CounterZero, CounterStep)
  }

  /** The entries for the hours `hours`, in order, for those with at least five games. */
  function HourLines(gs: seq<Analysis>, hours: seq<nat>): seq<HourLine> {
    if hours == [] then []
    else
      var h := hours[|hours| - 1];
      var c := HourCounter(gs, h);
      HourLines(gs, hours[..|hours| - 1]) + (if c.total >= MinHourGames then [HourLine(h, Percent(c.wins, c.total), c.total)] else [])
  }

  /** The sort key `win_rate`, descending, stable. */
  predicate HigherRate(a: HourLine, b: HourLine) { a.winRate > b.winRate }

  /** The hours with at least five games, best win rate first. */
  function RankedHours(gs: seq<Analysis>): seq<HourLine> {
    SortBy(HourLines(gs, Keys(gs, HourKey)), HigherRate)
  }

  /** Fewest games a day needs to count as a session. */
  const MinSessionGames: nat := 3

  /** The `length_groups` a session of `n` games goes to. */
  datatype SessionLength = Short | Medium | Long

  function LengthOf(n: nat): SessionLength {
    if n <= 5 then Short else if n <= 10 then Medium else Long
  }

  /** The games of day `day`, in date order. */
  function DayGames(sorted: seq<Analysis>, day: int): seq<Analysis> {
    Select(sorted, DayKey, day)
  }

  /** The win rates of the sessions of length group `len` among the days `days`, in order. */
  function SessionRates(sorted: seq<Analysis>, days: seq<int>, len: SessionLength): seq<real> {
    if days == [] then []
    else SessionRates(sorted, days[..|days| - 1], len) + SessionEntry(DayGames(sorted, days[|days| - 1]), len)
  }

  /** What one day's games add to a length group: their win rate when they form a session of that length. */
  function SessionEntry(session: seq<Analysis>, len: SessionLength): (r: seq<real>)
    ensures |r| <= 1
    ensures r != [] <==> |session| >= MinSessionGames && LengthOf(|session|) == len
    ensures forall k :: 0 <= k < |r| ==> 0.0 <= r[k] <= 100.0
  {
    if |session| >= MinSessionGames && LengthOf(|session|) == len then [Percent(Count(session, Won), |session|)] else []
  }

  /** `optimal_session_length`: the mean win rate of each length group that has a session. */
  datatype SessionMeans = SessionMeans(short: Option<real>, medium: Option<real>, long: Option<real>)

  /** The mean of a group's rates, absent when the group is empty. */
  function MeanIfAny(rates: seq<real>): Option<real> {
    if rates == [] then None else Some(Mean(rates))
  }

  /** The dict `analyze_momentum` returns. */
  datatype MomentumAnalysis = MomentumAnalysis(
    maxWinStreak: nat,
    maxLossStreak: nat,
    recoveryRateAfterLoss: real,
    bestHours: seq<HourLine>,
    optimalSessionLength: SessionMeans,
    totalSessions: nat)

  /** The games in date order, the order the streak, recovery and session loops walk. */
  function ByDate(gs: seq<Analysis>): seq<Analysis> {
    SortBy(gs, EarlierDate)
  }

  /** The results of the games in date order. */
  function DateResults(gs: seq<Analysis>): seq<ResultType> {
    MapSeq(ByDate(gs), ResultOf)
  }

  /** The days played, in the order of the date-sorted games. */
  function PlayDays(gs: seq<Analysis>): seq<int> {
    Keys(ByDate(gs), DayKey)
  }

  /** The session means of the three length groups. */
  function SessionMeansOf(gs: seq<Analysis>): SessionMeans {
    var sorted := ByDate(gs);
    var days := PlayDays(gs);
    SessionMeans(
      MeanIfAny(SessionRates(sorted, days, Short)),
      MeanIfAny(SessionRates(sorted, days, Medium)),
      MeanIfAny(SessionRates(sorted, days, Long)))
  }

  /** The value `analyze_momentum` returns. */
  function MomentumSpec(gs: seq<Analysis>): MomentumAnalysis {
    var results := DateResults(gs);
    MomentumAnalysis(
      Streaks.LongestRecorded(results, Win, |results|), Streaks.LongestRecorded(results, Loss, |results|),
      Streaks.RecoveryRate(results), Take(RankedHours(gs), 3), SessionMeansOf(gs), |PlayDays(gs)|)
  }

  /** One more hour adds its entry when it has at least five games. */
  lemma HourLinesSnoc(gs: seq<Analysis>, hours: seq<nat>, h: nat)
    ensures var c := HourCounter(gs, h);
      HourLines(gs, hours + [h]) == HourLines(gs, hours) + (if c.total >= MinHourGames then [HourLine(h, Percent(c.wins, c.total), c.total)] else [])
  {
    assert (hours + [h])[..|hours|] == hours;
  }

  /** `counters` holds, for each hour of `hours`, the counter of the games played at that hour. */
  predicate HourCounters(gs: seq<Analysis>, hours: seq<nat>, counters: seq<WinCounter>) {
    |counters| == |hours| && forall i :: 0 <= i < |hours| ==> counters[i] == HourCounter(gs, hours[i])
  }

  /** The per-hour counting loop: the hours in first-seen order and each hour's counter. */
  method CountHours(gs: seq<Analysis>) returns (hours: seq<nat>, counters: seq<WinCounter>)
    ensures hours == Keys(gs, HourKey)
    ensures HourCounters(gs, hours, counters)
  {
    var hourPerformance;
    hours, hourPerformance := GroupFold(gs, HourKey, CounterZero, CounterStep);
    counters := ValuesInOrder(hours, hourPerformance);
    forall i | 0 <= i < |hours|
      ensures counters[i] == HourCounter(gs, hours[i])
    {
      assert hours[i] in hours;
    }
  }

  /** The entries of the hours with at least five games, in the order of `hours`. */
  method ListHours(gs: seq<Analysis>, hours: seq<nat>, counters: seq<WinCounter>) returns (lines: seq<HourLine>)
    requires HourCounters(gs, hours, counters)
    ensures lines == HourLines(gs, hours)
  {
    lines := [];
    for i := 0 to |hours|
      invariant lines == HourLines(gs, hours[..i])
    {
      var h, c := hours[i], counters[i];
      PrefixSnoc(hours, i);
      HourLinesSnoc(gs, hours[..i], h);
      if c.total >= MinHourGames {
        lines := lines + [HourLine(h, Percent(c.wins, c.total), c.total)];
      }
    }
    assert hours[..|hours|] == hours;
  }

  /** The per-hour counting loop and the ranking of the hours with at least five games. */
  method BestHoursOf(gs: seq<Analysis>) returns (best: seq<HourLine>)
    ensures best == RankedHours(gs)
  {
    var hours, counters := CountHours(gs);
    var lines := ListHours(gs, hours, counters);
    best := SortBy(lines, HigherRate);
  }

  /** One more day adds its session, if it is one, to the group its length picks. */
  lemma SessionRatesSnoc(sorted: seq<Analysis>, days: seq<int>, day: int, session: seq<Analysis>, len: SessionLength)
    requires session == DayGames(sorted, day)
    ensures SessionRates(sorted, days + [day], len) == SessionRates(sorted, days, len) + SessionEntry(session, len)
  {
    assert (days + [day])[..|days|] == days;
  }

  /** `sessions` holds, for each day of `days`, that day's games among `sorted`. */
  predicate DaySessions(sorted: seq<Analysis>, days: seq<int>, sessions: seq<seq<Analysis>>) {
    |sessions| == |days| && forall i :: 0 <= i < |days| ==> sessions[i] == DayGames(sorted, days[i])
  }

  /** The per-day grouping of the date-sorted games: the days in first-seen order and each day's games. */
  method DailyGames(sorted: seq<Analysis>) returns (days: seq<int>, sessions: seq<seq<Analysis>>)
    ensures days == Keys(sorted, DayKey)
    ensures DaySessions(sorted, days, sessions)
  {
    var dailyGames;
    days, dailyGames := GroupFold(sorted, DayKey, [], Append);
    sessions := ValuesInOrder(days, dailyGames);
    forall i | 0 <= i < |days|
      ensures sessions[i] == DayGames(sorted, days[i])
    {
      assert days[i] in days;
      FoldAppend(Select(sorted, DayKey, days[i]));
    }
  }

  /** One day's games: a session goes to the group its length picks. */
  method AddSession(short: seq<real>, medium: seq<real>, long: seq<real>, session: seq<Analysis>)
    returns (short': seq<real>, medium': seq<real>, long': seq<real>)
    ensures short' == short + SessionEntry(session, Short)
    ensures medium' == medium + SessionEntry(session, Medium)
    ensures long' == long + SessionEntry(session, Long)
  {
    short', medium', long' := short, medium, long;
    if |session| >= MinSessionGames {
      var rate := Percent(Count(session, Won), |session|);
      if |session| <= 5 {
        short' := short' + [rate];
      } else if |session| <= 10 {
        medium' := medium' + [rate];
      } else {
        long' := long' + [rate];
      }
    }
  }

  /** The session loop over the days: each day's games go to the group their length picks. */
  method SessionGroups(sorted: seq<Analysis>, days: seq<int>, sessions: seq<seq<Analysis>>)
    returns (short: seq<real>, medium: seq<real>, long: seq<real>)
    requires DaySessions(sorted, days, sessions)
    ensures short == SessionRates(sorted, days, Short)
    ensures medium == SessionRates(sorted, days, Medium)
    ensures long == SessionRates(sorted, days, Long)
  {
    short, medium, long := [], [], [];
    for i := 0 to |days|
      invariant short == SessionRates(sorted, days[..i], Short)
      invariant medium == SessionRates(sorted, days[..i], Medium)
      invariant long == SessionRates(sorted, days[..i], Long)
    {
      PrefixSnoc(days, i);
      SessionRatesSnoc(sorted, days[..i], days[i], sessions[i], Short);
      SessionRatesSnoc(sorted, days[..i], days[i], sessions[i], Medium);
      SessionRatesSnoc(sorted, days[..i], days[i], sessions[i], Long);
      short, medium, long := AddSession(short, medium, long, sessions[i]);
    }
    assert days[..|days|] == days;
  }

  /**
   * The per-day grouping of the date-sorted games, the session loop over the
   * days, and the mean of each length group that has a session.
   */
  method SessionsOf(sorted: seq<Analysis>) returns (days: seq<int>, means: SessionMeans)
    ensures days == Keys(sorted, DayKey)
    ensures means == SessionMeans(
      MeanIfAny(SessionRates(sorted, days, Short)),
      MeanIfAny(SessionRates(sorted, days, Medium)),
      MeanIfAny(SessionRates(sorted, days, Long)))
  {
    var sessions;
    days, sessions := DailyGames(sorted);
    var short, medium, long := SessionGroups(sorted, days, sessions);
    means := SessionMeans(MeanIfAny(short), MeanIfAny(medium), MeanIfAny(long));
  }

  /** An hour gets an entry exactly when it is listed and has at least five games; the entry holds its counts. */
  lemma {:induction false} HourLinesExactly(gs: seq<Analysis>, hours: seq<nat>, line: HourLine)
    ensures line in HourLines(gs, hours) <==>
      && line.hour in hours
      && HourCounter(gs, line.hour).total >= MinHourGames
      && line == HourLine(line.hour, Percent(HourCounter(gs, line.hour).wins, HourCounter(gs, line.hour).total),
                          HourCounter(gs, line.hour).total)
  {
    if hours != [] {
      HourLinesExactly(gs, hours[..|hours| - 1], line);
    }
  }

  /**
   * The min(3, n) best-rated of the n ranked hours are listed, best win rate
   * first, and no ranked hour left out has a higher rate than one listed;
   * each listed hour has at least five games, and its entry holds the games
   * played at that hour and the share of them that were won.
   */
  lemma BestHoursFacts(gs: seq<Analysis>)
    ensures |MomentumSpec(gs).bestHours| == (if |RankedHours(gs)| < 3 then |RankedHours(gs)| else 3)
    ensures RateOrdered(MomentumSpec(gs).bestHours)
    ensures forall k, x :: 0 <= k < |MomentumSpec(gs).bestHours| && x in RankedHours(gs) && x !in MomentumSpec(gs).bestHours ==>
      x.winRate <= MomentumSpec(gs).bestHours[k].winRate
    ensures HoursCounted(gs, MomentumSpec(gs).bestHours)
  {
    var best := Take(RankedHours(gs), 3);
    assert MomentumSpec(gs).bestHours == best;
    TopHoursOrdered(gs, best);
    TopHoursCounted(gs, best);
    BestRatesKept(gs);
  }

  /** The first three ranked hours are `min(3, n)` of them, and none left out has a higher rate than one kept. */
  lemma BestRatesKept(gs: seq<Analysis>)
    ensures var best := Take(RankedHours(gs), 3);
      && |best| == (if |RankedHours(gs)| < 3 then |RankedHours(gs)| else 3)
      && forall k, x :: 0 <= k < |best| && x in RankedHours(gs) && x !in best ==> x.winRate <= best[k].winRate
  {
    assert StrictOrder(HigherRate);
    SortBySorted(HourLines(gs, Keys(gs, HourKey)), HigherRate);
    TakeOfSorted(RankedHours(gs), 3, HigherRate);
  }

  /** Best win rate first. */
  predicate RateOrdered(lines: seq<HourLine>) {
    forall i, j :: 0 <= i < j < |lines| ==> lines[i].winRate >= lines[j].winRate
  }

  /** Each entry is an hour with at least five games of `gs`, holding their count and win rate. */
  predicate HoursCounted(gs: seq<Analysis>, lines: seq<HourLine>) {
    forall k :: 0 <= k < |lines| ==>
      var at := Select(gs, HourKey, lines[k].hour);
      && lines[k].games == |at| >= MinHourGames
      && lines[k].winRate == Percent(Count(at, Won), |at|)
  }

  /** The listed hours come best win rate first. */
  lemma TopHoursOrdered(gs: seq<Analysis>, best: seq<HourLine>)
    requires best == Take(RankedHours(gs), 3)
    ensures RateOrdered(best)
  {
    assert StrictOrder(HigherRate);
    SortBySorted(HourLines(gs, Keys(gs, HourKey)), HigherRate);
  }

  /** Each listed hour has at least five games and holds their count and win rate. */
  lemma TopHoursCounted(gs: seq<Analysis>, best: seq<HourLine>)
    requires best == Take(RankedHours(gs), 3)
    ensures HoursCounted(gs, best)
  {
    var ranked := RankedHours(gs);
    forall k | 0 <= k < |best|
      ensures var at := Select(gs, HourKey, best[k].hour);
        && best[k].games == |at| >= MinHourGames
        && best[k].winRate == Percent(Count(at, Won), |at|)
    {
      RankedHourEntry(gs, ranked, k);
    }
  }

  /** A ranked entry is an hour with at least five games, holding its game count and win rate. */
  lemma RankedHourEntry(gs: seq<Analysis>, ranked: seq<HourLine>, k: nat)
    requires ranked == RankedHours(gs)
    requires k < |ranked|
    ensures var at := Select(gs, HourKey, ranked[k].hour);
      && ranked[k].games == |at| >= MinHourGames
      && ranked[k].winRate == Percent(Count(at, Won), |at|)
  {
    var e := ranked[k];
    assert e in multiset(ranked);
    assert e in HourLines(gs, Keys(gs, HourKey));
    HourLinesExactly(gs, Keys(gs, HourKey), e);
    CounterFoldCounts(Select(gs, HourKey, e.hour));
  }

  /** Session win rates are percentages. */
  lemma {:induction false} SessionRatesBounded(sorted: seq<Analysis>, days: seq<int>, len: SessionLength)
    ensures forall k :: 0 <= k < |SessionRates(sorted, days, len)| ==> 0.0 <= SessionRates(sorted, days, len)[k] <= 100.0
  {
    if days != [] {
      SessionRatesBounded(sorted, days[..|days| - 1], len);
    }
  }

  /** A group's mean, when present, is a percentage. */
  lemma MeanIfAnyBounded(rates: seq<real>)
    requires forall k :: 0 <= k < |rates| ==> 0.0 <= rates[k] <= 100.0
    ensures MeanIfAny(rates).Some? ==> 0.0 <= MeanIfAny(rates).value <= 100.0
  {
    if rates != [] {
      MeanBounds(rates, 0.0, 100.0);
    }
  }

  /** Each length group's mean, when present, is a percentage. */
  lemma SessionMeansBounded(gs: seq<Analysis>)
    ensures var o := MomentumSpec(gs).optimalSessionLength;
      && (o.short.Some? ==> 0.0 <= o.short.value <= 100.0)
      && (o.medium.Some? ==> 0.0 <= o.medium.value <= 100.0)
      && (o.long.Some? ==> 0.0 <= o.long.value <= 100.0)
  {
    var sorted := ByDate(gs);
    var days := PlayDays(gs);
    SessionRatesBounded(sorted, days, Short);
    SessionRatesBounded(sorted, days, Medium);
    SessionRatesBounded(sorted, days, Long);
    MeanIfAnyBounded(SessionRates(sorted, days, Short));
    MeanIfAnyBounded(SessionRates(sorted, days, Medium));
    MeanIfAnyBounded(SessionRates(sorted, days, Long));
  }

  /**
   * The number of sessions counts every day played, whatever its number of
   * games; and a day is counted exactly when some game was played on it.
   */
  lemma SessionDaysExactly(gs: seq<Analysis>, day: int)
    ensures MomentumSpec(gs).totalSessions <= |gs|
    ensures day in PlayDays(gs) <==> exists k :: 0 <= k < |gs| && DayKey(gs[k]) == day
  {
    var sorted := ByDate(gs);
    KeysExactly(sorted, DayKey, day);
    if HasKey(sorted, DayKey, day) {
      var i :| 0 <= i < |sorted| && DayKey(sorted[i]) == day;
      assert sorted[i] in multiset(gs);
      var k :| 0 <= k < |gs| && gs[k] == sorted[i];
    }
    if exists k :: 0 <= k < |gs| && DayKey(gs[k]) == day {
      var k :| 0 <= k < |gs| && DayKey(gs[k]) == day;
      assert gs[k] in multiset(sorted);
      var i :| 0 <= i < |sorted| && sorted[i] == gs[k];
    }
  }

  /**
   * The two streaks are the longest runs of wins and of losses in date
   * order that the loop records: no recorded run is longer, and a positive
   * maximum is reached by some run; the recovery rate is a percentage.
   */
  lemma StreakFacts(gs: seq<Analysis>, a: nat, b: nat)
    ensures var results := DateResults(gs);
      var m := MomentumSpec(gs);
      && (Streaks.RecordedStreak(results, a, b, Win) ==> b - a <= m.maxWinStreak)
      && (Streaks.RecordedStreak(results, a, b, Loss) ==> b - a <= m.maxLossStreak)
      && (m.maxWinStreak > 0 ==> Streaks.StreakOfLength(results, Win, m.maxWinStreak))
      && (m.maxLossStreak > 0 ==> Streaks.StreakOfLength(results, Loss, m.maxLossStreak))
      && 0.0 <= m.recoveryRateAfterLoss <= 100.0
  {
    var results := DateResults(gs);
    Streaks.LongestHasLength(results, Win);
    Streaks.LongestHasLength(results, Loss);
    if Streaks.RecordedStreak(results, a, b, Win) {
      Streaks.LongestBoundsStreaks(results, Win, |results|, a, b);
    }
    if Streaks.RecordedStreak(results, a, b, Loss) {
      Streaks.LongestBoundsStreaks(results, Loss, |results|, a, b);
    }
  }
}
