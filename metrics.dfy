/**
 * `MetricsCalculator` (analyzer/metrics_calculator.py): the folds over the
 * parsed fact sheets that produce the statistics the report and the insight
 * rules read. Counting folds over a `defaultdict` run through
 * `Grouping.GroupFold`; the per-group counters are plain datatypes whose
 * folds are tied to `Count` and `Sum` by lemmas.
 */
module Metrics {
  import opened Wrappers
  import opened Text
  import opened Tally
  import opened Grouping
  import opened GameParser
  import Streaks

  /** `MIN_GAMES_FOR_PATTERN`. */
  const MinGamesForPattern: nat := 3
  /** `QUICK_LOSS_MOVES`. */
  const QuickLossMoves: nat := 20

  // ---------------------------------------------------------------------------
  // Fields of a fact sheet, as predicates and key functions
  // ---------------------------------------------------------------------------

  predicate Won(g: ParsedGame) { g.colorData.resultType == Win }
  predicate Lost(g: ParsedGame) { g.colorData.resultType == Loss }
  predicate Drew(g: ParsedGame) { g.colorData.resultType == Draw }
  predicate Decided(g: ParsedGame) { Won(g) || Lost(g) }
  predicate AnyGame(g: ParsedGame) { true }
  predicate AsWhite(g: ParsedGame) { g.colorData.color == White }
  predicate AsBlack(g: ParsedGame) { g.colorData.color == Black }

  function PlayerRating(g: ParsedGame): int { g.colorData.playerRating }
  function OpponentRating(g: ParsedGame): int { g.colorData.opponentRating }
  function TotalMovesOf(g: ParsedGame): int { g.totalMoves }
  function ResultOf(g: ParsedGame): ResultType { g.colorData.resultType }
  function TimeControlOf(g: ParsedGame): string { g.timeControl }
  function OpeningOf(g: ParsedGame): string { g.opening }
  function EndPhaseOf(g: ParsedGame): Phase { g.endPhase }
  function TerminationOf(g: ParsedGame): Termination { g.termination }
  /** `opponent_rating - player_rating`. */
  function RatingDiff(g: ParsedGame): int { g.colorData.opponentRating - g.colorData.playerRating }

  /** Every game is a win, a loss or a draw, and exactly one of them. */
  lemma ResultPartition(games: seq<ParsedGame>)
    ensures Count(games, Won) + Count(games, Lost) + Count(games, Drew) == |games|
    ensures Count(games, Won) + Count(games, Lost) == Count(games, Decided)
  {
    CountDisjoint(games, Won, Lost, Decided);
    CountDisjoint(games, Decided, Drew, AnyGame);
    CountEverything(games, AnyGame);
  }

  // ---------------------------------------------------------------------------
  // _calculate_basic_stats
  // ---------------------------------------------------------------------------

  datatype BasicStats = BasicStats(
    totalGames: nat,
    wins: nat,
    losses: nat,
    draws: int,
    winRate: real,
    avgPlayerRating: real,
    avgOpponentRating: real)

  /** `_calculate_basic_stats`: draws are whatever is neither a win nor a loss; ratios are 0 without games. */
  function BasicStatsOf(games: seq<ParsedGame>): (s: BasicStats)
    ensures s.totalGames == |games| && s.wins == Count(games, Won) && s.losses == Count(games, Lost)
    ensures s.draws == Count(games, Drew) >= 0
    ensures s.wins + s.losses + s.draws == s.totalGames
    ensures 0.0 <= s.winRate <= 100.0
  {
    ResultPartition(games);
    var total := |games|;
    var wins := Count(games, Won);
    var losses := Count(games, Lost);
    BasicStats(total, wins, losses, total - wins - losses, Percent(wins, total),
               Average(Sum(games, PlayerRating) as real, total),
               Average(Sum(games, OpponentRating) as real, total))
  }

  /** The win rate is the share of wins, and the two averages are the mean ratings. */
  lemma BasicStatsRatios(games: seq<ParsedGame>)
    requires games != []
    ensures var s := BasicStatsOf(games);
      && IsPercentOf(s.winRate, Count(games, Won), |games|)
      && IsMeanOf(s.avgPlayerRating, Sum(games, PlayerRating) as real, |games|)
      && IsMeanOf(s.avgOpponentRating, Sum(games, OpponentRating) as real, |games|)
  {
    PercentScales(Count(games, Won), |games|);
    AverageScales(Sum(games, PlayerRating) as real, |games|);
    AverageScales(Sum(games, OpponentRating) as real, |games|);
  }

  // ---------------------------------------------------------------------------
  // _calculate_color_performance
  // ---------------------------------------------------------------------------

  datatype ColorPerformance = ColorPerformance(
    whiteGames: nat,
    whiteWins: nat,
    whiteLosses: nat,
    whiteWinRate: real,
    blackGames: nat,
    blackWins: nat,
    blackLosses: nat,
    blackWinRate: real,
    avgWhiteMoves: real,
    avgBlackMoves: real)

  /** `_calculate_color_performance`: the same tallies restricted to the games played as each colour. */
  function ColorPerformanceOf(games: seq<ParsedGame>): ColorPerformance {
    var white := Filter(games, AsWhite);
    var black := Filter(games, AsBlack);
    ColorPerformance(
      |white|, Count(white, Won), Count(white, Lost), Percent(Count(white, Won), |white|),
      |black|, Count(black, Won), Count(black, Lost), Percent(Count(black, Won), |black|),
      Average(Sum(white, TotalMovesOf) as real, |white|),
      Average(Sum(black, TotalMovesOf) as real, |black|))
  }

  /**
   * The two colours split the games: their game counts, wins and losses add
   * up to the overall ones, and each colour's win rate is a percentage.
   */
  lemma ColorsSplitGames(games: seq<ParsedGame>)
    ensures ColorPerformanceOf(games).whiteGames + ColorPerformanceOf(games).blackGames == |games|
    ensures ColorPerformanceOf(games).whiteWins + ColorPerformanceOf(games).blackWins == Count(games, Won)
    ensures ColorPerformanceOf(games).whiteLosses + ColorPerformanceOf(games).blackLosses == Count(games, Lost)
    ensures 0.0 <= ColorPerformanceOf(games).whiteWinRate <= 100.0
    ensures 0.0 <= ColorPerformanceOf(games).blackWinRate <= 100.0
  {
    CountSplit(games, AsWhite, AsBlack, AnyGame);
    CountEverything(games, AnyGame);
    CountEverything(Filter(games, AsWhite), AnyGame);
    CountEverything(Filter(games, AsBlack), AnyGame);
    CountSplit(games, AsWhite, AsBlack, Won);
    CountSplit(games, AsWhite, AsBlack, Lost);
  }

  // ---------------------------------------------------------------------------
  // _calculate_time_control_stats
  // ---------------------------------------------------------------------------

  /** The raw counters of one time control before the averaging pass. */
  datatype TcCounter = TcCounter(
    total: nat,
    wins: nat,
    losses: nat,
    draws: nat,
    movesSum: int,
    checkmates: nat,
    resignations: nat,
    timeLosses: nat,
    oppRatingSum: int)

  const TcZero := TcCounter(0, 0, 0, 0, 0, 0, 0, 0, 0)

  /** One pass of the counting loop for a game of this time control. */
  function TcStep(c: TcCounter, g: ParsedGame): TcCounter {
    TcCounter(
      c.total + 1,
      c.wins + (if Won(g) then 1 else 0),
      c.losses + (if Lost(g) then 1 else 0),
      c.draws + (if !Won(g) && !Lost(g) then 1 else 0),
      c.movesSum + g.totalMoves,
      c.checkmates + (if g.termination == ByCheckmate then 1 else 0),
      c.resignations + (if g.termination == ByResignation then 1 else 0),
      c.timeLosses + (if Lost(g) && g.termination == OnTime then 1 else 0),
      c.oppRatingSum + OpponentRating(g))
  }

  predicate EndedByCheckmate(g: ParsedGame) { g.termination == ByCheckmate }
  predicate EndedByResignation(g: ParsedGame) { g.termination == ByResignation }
  predicate LostOnTime(g: ParsedGame) { Lost(g) && g.termination == OnTime }

  /** The counters of a list of games are its counts and sums. */
  lemma {:induction false} TcFoldCounts(gs: seq<ParsedGame>)
    ensures Fold(gs, TcZero, TcStep) == TcCounter(
      |gs|, Count(gs, Won), Count(gs, Lost), Count(gs, Drew), Sum(gs, TotalMovesOf),
      Count(gs, EndedByCheckmate), Count(gs, EndedByResignation), Count(gs, LostOnTime),
      Sum(gs, OpponentRating))
  {
    if gs != [] {
      TcFoldCounts(gs[..|gs| - 1]);
    }
  }

  /** One time control's entry once the averaging pass has run. */
  datatype TimeControlStats = TimeControlStats(
    total: nat,
    wins: nat,
    losses: nat,
    draws: nat,
    avgMoves: real,
    checkmates: nat,
    resignations: nat,
    timeLosses: nat,
    avgOppRating: real,
    winRate: real,
    checkmatePct: real,
    resignationPct: real,
    timeLossPct: real)

  /** The averaging pass over one entry: sums become means and counts get their percentages. */
  function TcFinish(c: TcCounter): TimeControlStats {
    TimeControlStats(
      c.total, c.wins, c.losses, c.draws, Average(c.movesSum as real, c.total),
      c.checkmates, c.resignations, c.timeLosses, Average(c.oppRatingSum as real, c.total),
      Percent(c.wins, c.total), Percent(c.checkmates, c.total),
      Percent(c.resignations, c.total), Percent(c.timeLosses, c.total))
  }

  /** The dict `_calculate_time_control_stats` returns: one entry per time control that occurs. */
  function TimeControlStatsSpec(games: seq<ParsedGame>): map<string, TimeControlStats> {
    map tc | tc in Keys(games, TimeControlOf) :: TcFinish(Fold(Select(games, TimeControlOf, tc), TcZero, TcStep))
  }

  /** `_calculate_time_control_stats`: the counting loop, then the averaging pass over every entry. */
  method TimeControlStatsOf(games: seq<ParsedGame>) returns (stats: map<string, TimeControlStats>)
    ensures stats == TimeControlStatsSpec(games)
  {
    var keys, counters := GroupFold(games, TimeControlOf, TcZero, TcStep);
    stats := map tc | tc in counters :: TcFinish(counters[tc]);
  }

  /**
   * Every entry belongs to a time control that occurs; its results partition
   * its games, its time losses are losses, and its checkmates and
   * resignations are distinct games.
   */
  lemma TimeControlCounts(games: seq<ParsedGame>, tc: string)
    requires tc in TimeControlStatsSpec(games)
    ensures HasKey(games, TimeControlOf, tc)
    ensures var e := TimeControlStatsSpec(games)[tc];
      && e.total == |Select(games, TimeControlOf, tc)| > 0
      && e.wins + e.losses + e.draws == e.total
      && e.timeLosses <= e.losses
      && e.checkmates + e.resignations <= e.total
  {
    var gs := Select(games, TimeControlOf, tc);
    KeysExactly(games, TimeControlOf, tc);
    var i :| 0 <= i < |games| && TimeControlOf(games[i]) == tc;
    SelectHas(games, TimeControlOf, i);
    assert TimeControlStatsSpec(games)[tc] == TcFinish(Fold(gs, TcZero, TcStep));
    TcCounterConsistent(gs);
  }

  /** A time control's counters: its results partition its games, time losses are losses, checkmates and resignations are distinct. */
  lemma TcCounterConsistent(gs: seq<ParsedGame>)
    ensures var c := Fold(gs, TcZero, TcStep);
      && c.total == |gs|
      && c.wins + c.losses + c.draws == c.total
      && c.timeLosses <= c.losses
      && c.checkmates + c.resignations <= c.total
  {
    TcFoldCounts(gs);
    ResultPartition(gs);
    CountMono(gs, LostOnTime, Lost);
    CountDisjoint(gs, EndedByCheckmate, EndedByResignation, Ended);
  }

  /** An entry's averages are the means over its games, and its win rate is the share of its wins. */
  lemma TimeControlRatios(games: seq<ParsedGame>, tc: string)
    requires tc in TimeControlStatsSpec(games)
    ensures var e := TimeControlStatsSpec(games)[tc];
      var gs := Select(games, TimeControlOf, tc);
      && IsMeanOf(e.avgMoves, Sum(gs, TotalMovesOf) as real, |gs|)
      && IsMeanOf(e.avgOppRating, Sum(gs, OpponentRating) as real, |gs|)
      && IsPercentOf(e.winRate, Count(gs, Won), |gs|)
      && 0.0 <= e.winRate <= 100.0
  {
    var gs := Select(games, TimeControlOf, tc);
    var c := Fold(gs, TcZero, TcStep);
    TimeControlCounts(games, tc);
    TcFoldCounts(gs);
    assert TimeControlStatsSpec(games)[tc] == TcFinish(c);
    PercentScales(c.wins, c.total);
    AverageScales(c.movesSum as real, c.total);
    AverageScales(c.oppRatingSum as real, c.total);
  }

  predicate Ended(g: ParsedGame) { g.termination == ByCheckmate || g.termination == ByResignation }

  // ---------------------------------------------------------------------------
  // _calculate_opening_metrics
  // ---------------------------------------------------------------------------

  /** The counters of one opening. */
  datatype OpeningCounter = OpeningCounter(
    total: nat,
    wins: nat,
    losses: nat,
    draws: nat,
    asWhite: nat,
    asBlack: nat,
    whiteWins: nat,
    blackWins: nat)

  const OpeningZero := OpeningCounter(0, 0, 0, 0, 0, 0, 0, 0)

  /** One pass of the counting loop: `as_{color}` always, `{color}_wins` with a win. */
  function OpeningStep(c: OpeningCounter, g: ParsedGame): OpeningCounter {
    OpeningCounter(
      c.total + 1,
      c.wins + (if Won(g) then 1 else 0),
      c.losses + (if Lost(g) then 1 else 0),
      c.draws + (if !Won(g) && !Lost(g) then 1 else 0),
      c.asWhite + (if AsWhite(g) then 1 else 0),
      c.asBlack + (if AsWhite(g) then 0 else 1),
      c.whiteWins + (if Won(g) && AsWhite(g) then 1 else 0),
      c.blackWins + (if Won(g) && !AsWhite(g) then 1 else 0))
  }

  predicate WonAsWhite(g: ParsedGame) { Won(g) && AsWhite(g) }
  predicate WonAsBlack(g: ParsedGame) { Won(g) && AsBlack(g) }

  /** The counters of a list of games are its counts. */
  lemma {:induction false} OpeningFoldCounts(gs: seq<ParsedGame>)
    ensures Fold(gs, OpeningZero, OpeningStep) == OpeningCounter(
      |gs|, Count(gs, Won), Count(gs, Lost), Count(gs, Drew), Count(gs, AsWhite), Count(gs, AsBlack),
      Count(gs, WonAsWhite), Count(gs, WonAsBlack))
  {
    if gs != [] {
      OpeningFoldCounts(gs[..|gs| - 1]);
    }
  }

  /** One entry of `openings_list`. */
  datatype OpeningLine = OpeningLine(
    name: string,
    games: nat,
    wins: nat,
    losses: nat,
    draws: nat,
    winRate: real,
    asWhite: nat,
    asBlack: nat,
    whiteWinRate: real,
    blackWinRate: real)

  function LineOf(name: string, c: OpeningCounter): OpeningLine {
    OpeningLine(name, c.total, c.wins, c.losses, c.draws, Percent(c.wins, c.total),
                c.asWhite, c.asBlack, Percent(c.whiteWins, c.asWhite), Percent(c.blackWins, c.asBlack))
  }

  /** The counters of the opening `name` in `games`. */
  function OpeningCounterOf(games: seq<ParsedGame>, name: string): OpeningCounter {
    Fold(Select(games, OpeningOf, name), OpeningZero, OpeningStep)
  }

  /** The entries built from the openings `names`, in order, for those with at least `MIN_GAMES_FOR_PATTERN` games. */
  function CandidateLines(games: seq<ParsedGame>, names: seq<string>): seq<OpeningLine> {
    if names == [] then []
    else
      var name := names[|names| - 1];
      var c := OpeningCounterOf(games, name);
      CandidateLines(games, names[..|names| - 1]) + (if c.total >= MinGamesForPattern then [LineOf(name, c)] else [])
  }

  /** The sort key `(-games, -win_rate)`: more games first, then the higher win rate. */
  predicate MorePlayed(a: OpeningLine, b: OpeningLine) {
    a.games > b.games || (a.games == b.games && a.winRate > b.winRate)
  }

  /** The sort key `win_rate`, ascending. */
  predicate LowerWinRate(a: OpeningLine, b: OpeningLine) {
    a.winRate < b.winRate
  }

  datatype OpeningMetrics = OpeningMetrics(
    uniqueOpenings: nat,
    openingsList: seq<OpeningLine>,
    topOpenings: seq<OpeningLine>,
    worstOpenings: seq<OpeningLine>)

  /** The value `_calculate_opening_metrics` returns. */
  function OpeningMetricsSpec(games: seq<ParsedGame>): OpeningMetrics {
    var names := Keys(games, OpeningOf);
    var sorted := SortBy(CandidateLines(games, names), MorePlayed);
    OpeningMetrics(|names|, sorted, Take(sorted, 5), Take(SortBy(sorted, LowerWinRate), 5))
  }

  /** One more opening adds its entry when it has at least `MIN_GAMES_FOR_PATTERN` games. */
  lemma CandidateLinesSnoc(games: seq<ParsedGame>, names: seq<string>, name: string)
    ensures var c := OpeningCounterOf(games, name);
      CandidateLines(games, names + [name]) == CandidateLines(games, names) + (if c.total >= MinGamesForPattern then [LineOf(name, c)] else [])
  {
    assert (names + [name])[..|names|] == names;
  }

  /** `counters` holds, for each opening of `names`, the counters of its games. */
  predicate OpeningCounters(games: seq<ParsedGame>, names: seq<string>, counters: seq<OpeningCounter>) {
    |counters| == |names| && forall i :: 0 <= i < |names| ==> counters[i] == OpeningCounterOf(games, names[i])
  }

  /** The counting loop: the openings in first-seen order and each one's counters. */
  method CountOpenings(games: seq<ParsedGame>) returns (names: seq<string>, counters: seq<OpeningCounter>)
    ensures names == Keys(games, OpeningOf)
    ensures OpeningCounters(games, names, counters)
  {
    var byName;
    names, byName := GroupFold(games, OpeningOf, OpeningZero, OpeningStep);
    counters := ValuesInOrder(names, byName);
    forall i | 0 <= i < |names|
      ensures counters[i] == OpeningCounterOf(games, names[i])
    {
      assert names[i] in names;
    }
  }

  /** The filtering pass over the openings in insertion order. */
  method ListOpenings(games: seq<ParsedGame>, names: seq<string>, counters: seq<OpeningCounter>) returns (lines: seq<OpeningLine>)
    requires OpeningCounters(games, names, counters)
    ensures lines == CandidateLines(games, names)
  {
    lines := [];
    for i := 0 to |names|
      invariant lines == CandidateLines(games, names[..i])
    {
      var name, c := names[i], counters[i];
      PrefixSnoc(names, i);
      CandidateLinesSnoc(games, names[..i], name);
      if c.total >= MinGamesForPattern {
        lines := lines + [LineOf(name, c)];
      }
    }
    assert names[..|names|] == names;
  }

  /**
   * `_calculate_opening_metrics`: the counting loop, the filtering pass over
   * the openings in insertion order, then the two stable sorts.
   */
  method OpeningMetricsOf(games: seq<ParsedGame>) returns (m: OpeningMetrics)
    ensures m == OpeningMetricsSpec(games)
  {
    var names, counters := CountOpenings(games);
    var lines := ListOpenings(games, names, counters);
    var sorted := SortBy(lines, MorePlayed);
    m := OpeningMetrics(|names|, sorted, Take(sorted, 5), Take(SortBy(sorted, LowerWinRate), 5));
  }

  /** Both sort keys are strict orders. */
  lemma OpeningOrdersStrict()
    ensures StrictOrder(MorePlayed)
    ensures StrictOrder(LowerWinRate)
  {
  }

  /** An entry is built for an opening exactly when it is listed and played at least `MIN_GAMES_FOR_PATTERN` times. */
  lemma {:induction false} CandidateLinesExactly(games: seq<ParsedGame>, names: seq<string>, line: OpeningLine)
    ensures line in CandidateLines(games, names) <==>
      line.name in names && OpeningCounterOf(games, line.name).total >= MinGamesForPattern
      && line == LineOf(line.name, OpeningCounterOf(games, line.name))
  {
    if names != [] {
      var init := names[..|names| - 1];
      var last := names[|names| - 1];
      CandidateLinesExactly(games, init, line);
      assert names == init + [last];
      CandidateLinesSnoc(games, init, last);
      assert line.name in names <==> line.name in init || line.name == last;
    }
  }

  /** The counters of an opening are the counts over the games played with it. */
  lemma OpeningCounterCounts(games: seq<ParsedGame>, name: string)
    ensures var c := OpeningCounterOf(games, name);
      var gs := Select(games, OpeningOf, name);
      && c.total == |gs|
      && c.wins + c.losses + c.draws == c.total
      && c.asWhite + c.asBlack == c.total
      && c.whiteWins + c.blackWins == c.wins
  {
    var gs := Select(games, OpeningOf, name);
    OpeningFoldCounts(gs);
    ResultPartition(gs);
    CountSplit(gs, AsWhite, AsBlack, AnyGame);
    CountEverything(gs, AnyGame);
    CountEverything(Filter(gs, AsWhite), AnyGame);
    CountEverything(Filter(gs, AsBlack), AnyGame);
    CountDisjoint(gs, WonAsWhite, WonAsBlack, Won);
  }

  /**
   * `openings_list` holds an entry for exactly the openings played at least
   * `MIN_GAMES_FOR_PATTERN` times, with that opening's counts.
   */
  lemma OpeningsListExactly(games: seq<ParsedGame>, line: OpeningLine)
    ensures line in OpeningMetricsSpec(games).openingsList <==>
      |Select(games, OpeningOf, line.name)| >= MinGamesForPattern
      && line == LineOf(line.name, OpeningCounterOf(games, line.name))
  {
    var names := Keys(games, OpeningOf);
    var lines := CandidateLines(games, names);
    assert line in SortBy(lines, MorePlayed) <==> line in lines by {
      assert multiset(SortBy(lines, MorePlayed)) == multiset(lines);
      assert line in SortBy(lines, MorePlayed) <==> line in multiset(SortBy(lines, MorePlayed));
    }
    CandidateLinesExactly(games, names, line);
    OpeningCounterCounts(games, line.name);
    KeysExactly(games, OpeningOf, line.name);
    if |Select(games, OpeningOf, line.name)| >= MinGamesForPattern {
      var gs := Select(games, OpeningOf, line.name);
      assert gs[0] in gs;
      var i :| 0 <= i < |games| && games[i] == gs[0];
      assert OpeningOf(games[i]) == line.name;
    }
  }

  /**
   * `openings_list` is sorted by games then win rate, `top_openings` is its
   * first five, `worst_openings` holds the min(5, n) entries of lowest win
   * rate, sorted by ascending win rate, with no entry left out rated below one
   * kept, and `unique_openings` counts every opening played.
   */
  lemma OpeningMetricsOrdered(games: seq<ParsedGame>)
    ensures var m := OpeningMetricsSpec(games);
      && SortedBy(m.openingsList, MorePlayed)
      && m.topOpenings == Take(m.openingsList, 5)
      && |m.worstOpenings| == (if |m.openingsList| < 5 then |m.openingsList| else 5)
      && SortedBy(m.worstOpenings, LowerWinRate)
      && (forall k :: 0 <= k < |m.worstOpenings| ==> m.worstOpenings[k] in m.openingsList)
      && (forall k, x :: 0 <= k < |m.worstOpenings| && x in m.openingsList && x !in m.worstOpenings ==>
            m.worstOpenings[k].winRate <= x.winRate)
      && m.uniqueOpenings == |Keys(games, OpeningOf)|
  {
    var m := OpeningMetricsSpec(games);
    OpeningOrdersStrict();
    SortBySorted(CandidateLines(games, Keys(games, OpeningOf)), MorePlayed);
    LowestRatesKept(m.openingsList);
  }

  /**
   * The first five by ascending win rate: min(5, n) entries of the list,
   * sorted, leaving out no entry rated below one they keep.
   */
  lemma LowestRatesKept(lines: seq<OpeningLine>)
    ensures var worst := Take(SortBy(lines, LowerWinRate), 5);
      && |worst| == (if |lines| < 5 then |lines| else 5)
      && SortedBy(worst, LowerWinRate)
      && (forall k :: 0 <= k < |worst| ==> worst[k] in lines)
      && (forall k, x :: 0 <= k < |worst| && x in lines && x !in worst ==> worst[k].winRate <= x.winRate)
  {
    var byRate := SortBy(lines, LowerWinRate);
    var worst := Take(byRate, 5);
    OpeningOrdersStrict();
    SortBySorted(lines, LowerWinRate);
    TakeOfSorted(byRate, 5, LowerWinRate);
    forall k | 0 <= k < |worst|
      ensures worst[k] in lines
    {
      assert worst[k] == byRate[k];
      assert byRate[k] in multiset(byRate);
    }
    forall k, x | 0 <= k < |worst| && x in lines && x !in worst
      ensures worst[k].winRate <= x.winRate
    {
      assert x in multiset(lines);
      assert x in byRate;
    }
  }

  // ---------------------------------------------------------------------------
  // _calculate_phase_metrics
  // ---------------------------------------------------------------------------

  /** The counters of one phase. */
  datatype PhaseCounter = PhaseCounter(games: nat, wins: nat, losses: nat)

  const PhaseZero := PhaseCounter(0, 0, 0)

  function PhaseStep(c: PhaseCounter, g: ParsedGame): PhaseCounter {
    PhaseCounter(c.games + 1, c.wins + (if Won(g) then 1 else 0), c.losses + (if Lost(g) then 1 else 0))
  }

  /** The counters of a list of games are its counts. */
  lemma {:induction false} PhaseFoldCounts(gs: seq<ParsedGame>)
    ensures Fold(gs, PhaseZero, PhaseStep) == PhaseCounter(|gs|, Count(gs, Won), Count(gs, Lost))
  {
    if gs != [] {
      PhaseFoldCounts(gs[..|gs| - 1]);
    }
  }

  /** One entry of `phase_stats` after the rate pass. */
  datatype PhaseLine = PhaseLine(games: nat, wins: nat, losses: nat, winRate: real, lossRate: real)

  function PhaseLineOf(c: PhaseCounter): PhaseLine {
    PhaseLine(c.games, c.wins, c.losses, Percent(c.wins, c.games), Percent(c.losses, c.games))
  }

  datatype PhaseMetrics = PhaseMetrics(
    opening: PhaseLine,
    middlegame: PhaseLine,
    endgame: PhaseLine,
    reachingOpening: nat,
    reachingMiddlegame: nat,
    reachingEndgame: nat,
    middlegameReachRate: real,
    endgameReachRate: real)

  /** More than `OPENING_PHASE_END` moves. */
  predicate PastOpening(g: ParsedGame) { g.totalMoves > OpeningPhaseEnd }
  /** More than `MIDDLEGAME_PHASE_END` moves. */
  predicate PastMiddlegame(g: ParsedGame) { g.totalMoves > MiddlegamePhaseEnd }

  /** The counters of the games that ended in phase `p`. */
  function PhaseCounterOf(games: seq<ParsedGame>, p: Phase): PhaseCounter {
    Fold(Select(games, EndPhaseOf, p), PhaseZero, PhaseStep)
  }

  /** The value `_calculate_phase_metrics` returns. */
  function PhaseMetricsSpec(games: seq<ParsedGame>): PhaseMetrics {
    var total := |games|;
    var middle := Count(games, PastOpening);
    var end := Count(games, PastMiddlegame);
    PhaseMetrics(
      PhaseLineOf(PhaseCounterOf(games, Opening)),
      PhaseLineOf(PhaseCounterOf(games, Middlegame)),
      PhaseLineOf(PhaseCounterOf(games, Endgame)),
      total, middle, end, Percent(middle, total), Percent(end, total))
  }

  /** The counters of an absent key are the initial zeros of the fixed dict. */
  function Lookup<K, A>(m: map<K, A>, k: K, zero: A): A {
    if k in m then m[k] else zero
  }

  /**
   * `_calculate_phase_metrics`: the counting loop over the three fixed phase
   * entries, the rate pass, and the reach counts.
   */
  method PhaseMetricsOf(games: seq<ParsedGame>) returns (m: PhaseMetrics)
    ensures m == PhaseMetricsSpec(games)
  {
    var phases, counters := GroupFold(games, EndPhaseOf, PhaseZero, PhaseStep);
    forall p: Phase
      ensures Lookup(counters, p, PhaseZero) == PhaseCounterOf(games, p)
    {
      if p !in counters {
        KeysExactly(games, EndPhaseOf, p);
        SelectNone(games, EndPhaseOf, p);
      }
    }
    var total := |games|;
    var middle := Count(games, PastOpening);
    var end := Count(games, PastMiddlegame);
    m := PhaseMetrics(
      PhaseLineOf(Lookup(counters, Opening, PhaseZero)),
      PhaseLineOf(Lookup(counters, Middlegame, PhaseZero)),
      PhaseLineOf(Lookup(counters, Endgame, PhaseZero)),
      total, middle, end, Percent(middle, total), Percent(end, total));
  }

  /** The games of the three phases add up to all games. */
  lemma {:induction false} PhasesPartition(games: seq<ParsedGame>)
    ensures |Select(games, EndPhaseOf, Opening)| + |Select(games, EndPhaseOf, Middlegame)|
          + |Select(games, EndPhaseOf, Endgame)| == |games|
  {
    if games != [] {
      var init := games[..|games| - 1];
      PhasesPartition(init);
      assert Select(games, EndPhaseOf, Opening) == Select(init, EndPhaseOf, Opening)
        + (if games[|games| - 1].endPhase == Opening then [games[|games| - 1]] else []);
      assert Select(games, EndPhaseOf, Middlegame) == Select(init, EndPhaseOf, Middlegame)
        + (if games[|games| - 1].endPhase == Middlegame then [games[|games| - 1]] else []);
      assert Select(games, EndPhaseOf, Endgame) == Select(init, EndPhaseOf, Endgame)
        + (if games[|games| - 1].endPhase == Endgame then [games[|games| - 1]] else []);
    }
  }

  /** When every game's phase is the one its length gives, the games past the opening are those ending later. */
  lemma {:induction false} ReachMatchesPhases(games: seq<ParsedGame>)
    requires forall k :: 0 <= k < |games| ==> games[k].endPhase == PhaseOf(games[k].totalMoves)
    ensures Count(games, PastOpening) == |Select(games, EndPhaseOf, Middlegame)| + |Select(games, EndPhaseOf, Endgame)|
    ensures Count(games, PastMiddlegame) == |Select(games, EndPhaseOf, Endgame)|
  {
    if games != [] {
      ReachMatchesPhases(games[..|games| - 1]);
    }
  }

  /**
   * The phase entries partition the games, reaching a later phase implies
   * reaching the earlier one, and every rate is a percentage.
   */
  lemma PhaseMetricsFacts(games: seq<ParsedGame>)
    ensures var m := PhaseMetricsSpec(games);
      && m.opening.games + m.middlegame.games + m.endgame.games == |games|
      && m.reachingEndgame <= m.reachingMiddlegame <= m.reachingOpening == |games|
      && m.opening.wins + m.opening.losses <= m.opening.games
      && 0.0 <= m.opening.lossRate <= 100.0 && 0.0 <= m.endgame.winRate <= 100.0
      && 0.0 <= m.middlegameReachRate <= 100.0 && 0.0 <= m.endgameReachRate <= 100.0
  {
    PhaseFoldCounts(Select(games, EndPhaseOf, Opening));
    PhaseFoldCounts(Select(games, EndPhaseOf, Middlegame));
    PhaseFoldCounts(Select(games, EndPhaseOf, Endgame));
    PhasesPartition(games);
    CountMono(games, PastMiddlegame, PastOpening);
    ResultPartition(Select(games, EndPhaseOf, Opening));
    ResultPartition(Select(games, EndPhaseOf, Endgame));
  }

  // ---------------------------------------------------------------------------
  // The `{'games': 0, 'wins': 0}` counter shared by several folds
  // ---------------------------------------------------------------------------

  /** A `{'games', 'wins'}` counter. */
  datatype WinTally = WinTally(games: nat, wins: nat)

  const TallyZero := WinTally(0, 0)

  /** `games += 1`, and `wins += 1` for a win. */
  function TallyStep(c: WinTally, g: ParsedGame): WinTally {
    WinTally(c.games + 1, c.wins + (if Won(g) then 1 else 0))
  }

  /** The counter of a list of games holds its length and its number of wins. */
  lemma {:induction false} TallyFoldCounts(gs: seq<ParsedGame>)
    ensures Fold(gs, TallyZero, TallyStep) == WinTally(|gs|, Count(gs, Won))
  {
    if gs != [] {
      TallyFoldCounts(gs[..|gs| - 1]);
    }
  }

  // ---------------------------------------------------------------------------
  // _calculate_time_metrics
  // ---------------------------------------------------------------------------

  /** The four lists of `wins_time_data` or `losses_time_data`. */
  datatype TimeSamples = TimeSamples(opening: seq<real>, middlegame: seq<real>, endgame: seq<real>, critical: seq<real>)

  const NoSamples := TimeSamples([], [], [], [])

  /** A phase average is collected only when it is positive. */
  function IfPositive(t: real): seq<real> {
    if t > 0.0 then [t] else []
  }

  /** The samples one game adds: its positive phase averages, and its average time per move when it has one. */
  function AddSamples(t: TimeSamples, g: ParsedGame): TimeSamples {
    match g.time
    case None => t
    case Some(ts) =>
      TimeSamples(
        t.opening + IfPositive(ts.avgTimePerPhase.opening),
        t.middlegame + IfPositive(ts.avgTimePerPhase.middlegame),
        t.endgame + IfPositive(ts.avgTimePerPhase.endgame),
        t.critical + (match ts.timing case None => [] case Some(m) => [m.avgTimePerMove]))
  }

  /** The samples collected from `gs`, in order. */
  function SamplesOf(gs: seq<ParsedGame>): TimeSamples {
    Fold(gs, NoSamples, AddSamples)
  }

  /** A game that is not a win: its samples go to `losses_time_data`, draws included. */
  predicate NotWon(g: ParsedGame) { !Won(g) }
  /** The game has an `avg_time_per_move` key. */
  predicate HasMoveTiming(g: ParsedGame) { g.time.Some? && g.time.value.timing.Some? }
  /** `termination == 'time'`, whoever lost. */
  predicate EndedOnTime(g: ParsedGame) { g.termination == OnTime }
  /** The game has time data with at least one move under time pressure. */
  predicate UnderTimePressure(g: ParsedGame) { g.time.Some? && g.time.value.timePressureMoves > 0 }
  predicate WonUnderTimePressure(g: ParsedGame) { UnderTimePressure(g) && Won(g) }

  /** The four entries of `time_per_move['wins']` or `time_per_move['losses']`. */
  datatype PhaseMeans = PhaseMeans(opening: real, middlegame: real, endgame: real, critical: real)

  function MeansOf(t: TimeSamples): PhaseMeans {
    PhaseMeans(Mean(t.opening), Mean(t.middlegame), Mean(t.endgame), Mean(t.critical))
  }

  datatype TimeMetrics = TimeMetrics(
    timeLosses: nat,
    timeLossPercentage: real,
    timePressureGames: nat,
    timePressurePct: real,
    timePressureWinRate: real,
    winsTimePerMove: PhaseMeans,
    lossesTimePerMove: PhaseMeans)

  /** The value `_calculate_time_metrics` returns. */
  function TimeMetricsSpec(games: seq<ParsedGame>): TimeMetrics {
    var pressure := Count(games, UnderTimePressure);
    TimeMetrics(
      Count(games, EndedOnTime), Percent(Count(games, EndedOnTime), |games|),
      pressure, Percent(pressure, |games|), Percent(Count(games, WonUnderTimePressure), pressure),
      MeansOf(SamplesOf(Filter(games, Won))), MeansOf(SamplesOf(Filter(games, NotWon))))
  }

  /**
   * `_calculate_time_metrics`: the collecting loop that sends each game's
   * samples to the wins or the losses side, the means, then the counts.
   */
  method TimeMetricsOf(games: seq<ParsedGame>) returns (m: TimeMetrics)
    ensures m == TimeMetricsSpec(games)
  {
    var winsData, lossesData := NoSamples, NoSamples;
    for i := 0 to |games|
      invariant winsData == FoldWhere(games[..i], Won, NoSamples, AddSamples)
      invariant lossesData == FoldWhere(games[..i], NotWon, NoSamples, AddSamples)
    {
      assert games[..i + 1][..i] == games[..i];
      if Won(games[i]) {
        winsData := AddSamples(winsData, games[i]);
      } else {
        lossesData := AddSamples(lossesData, games[i]);
      }
    }
    assert games[..|games|] == games;
    FoldWhereIsFoldFilter(games, Won, NoSamples, AddSamples);
    FoldWhereIsFoldFilter(games, NotWon, NoSamples, AddSamples);
    var pressure := Count(games, UnderTimePressure);
    m := TimeMetrics(
      Count(games, EndedOnTime), Percent(Count(games, EndedOnTime), |games|),
      pressure, Percent(pressure, |games|), Percent(Count(games, WonUnderTimePressure), pressure),
      MeansOf(winsData), MeansOf(lossesData));
  }

  /**
   * Every phase sample is positive, and there is one per-move sample for each
   * game with move timing.
   */
  lemma {:induction false} SamplesFacts(gs: seq<ParsedGame>)
    ensures var t := SamplesOf(gs);
      && (forall k :: 0 <= k < |t.opening| ==> t.opening[k] > 0.0)
      && (forall k :: 0 <= k < |t.middlegame| ==> t.middlegame[k] > 0.0)
      && (forall k :: 0 <= k < |t.endgame| ==> t.endgame[k] > 0.0)
      && |t.critical| == Count(gs, HasMoveTiming)
  {
    if gs != [] {
      SamplesFacts(gs[..|gs| - 1]);
    }
  }

  /** The mean of a list of positive samples is positive, or 0 when it is empty. */
  lemma PositiveSamplesMean(s: seq<real>)
    requires forall k :: 0 <= k < |s| ==> s[k] > 0.0
    ensures Mean(s) >= 0.0
    ensures s != [] ==> Mean(s) > 0.0
  {
    if s != [] {
      MeanPositive(s);
    }
  }

  /**
   * The time-loss and time-pressure rates are percentages, and the average
   * time spent per phase is never negative on either side.
   */
  lemma TimeMetricsFacts(games: seq<ParsedGame>)
    ensures var m := TimeMetricsSpec(games);
      && m.timeLosses <= |games| && m.timePressureGames <= |games|
      && 0.0 <= m.timeLossPercentage <= 100.0
      && 0.0 <= m.timePressurePct <= 100.0
      && 0.0 <= m.timePressureWinRate <= 100.0
      && m.winsTimePerMove.opening >= 0.0 && m.winsTimePerMove.middlegame >= 0.0 && m.winsTimePerMove.endgame >= 0.0
      && m.lossesTimePerMove.opening >= 0.0 && m.lossesTimePerMove.middlegame >= 0.0 && m.lossesTimePerMove.endgame >= 0.0
  {
    CountMono(games, WonUnderTimePressure, UnderTimePressure);
    var w := SamplesOf(Filter(games, Won));
    var l := SamplesOf(Filter(games, NotWon));
    SamplesFacts(Filter(games, Won));
    SamplesFacts(Filter(games, NotWon));
    PositiveSamplesMean(w.opening);
    PositiveSamplesMean(w.middlegame);
    PositiveSamplesMean(w.endgame);
    PositiveSamplesMean(l.opening);
    PositiveSamplesMean(l.middlegame);
    PositiveSamplesMean(l.endgame);
  }

  /** Every game with move timing contributes exactly one per-move sample, to one side. */
  lemma CriticalSamplesSplit(games: seq<ParsedGame>)
    ensures |SamplesOf(Filter(games, Won)).critical| + |SamplesOf(Filter(games, NotWon)).critical| == Count(games, HasMoveTiming)
  {
    SamplesFacts(Filter(games, Won));
    SamplesFacts(Filter(games, NotWon));
    CountSplit(games, Won, NotWon, HasMoveTiming);
  }

  // ---------------------------------------------------------------------------
  // _calculate_pattern_metrics
  // ---------------------------------------------------------------------------

  /** `win_patterns` or `loss_patterns`: the termination counter (as its items) and three lists. */
  datatype PatternSide = PatternSide(
    termination: seq<(Termination, nat)>,
    gameLength: seq<int>,
    ratingDiff: seq<int>,
    timeRemaining: seq<real>)

  const NoPatterns := PatternSide([], [], [], [])

  /** `final_time` when the game has time data. */
  function FinalTimes(g: ParsedGame): seq<real> {
    if g.time.Some? then [g.time.value.finalTime] else []
  }

  /** What one decided game adds to its side. */
  function AddPattern(p: PatternSide, g: ParsedGame): PatternSide {
    PatternSide(Tick(p.termination, g.termination), p.gameLength + [TotalMovesOf(g)],
                p.ratingDiff + [RatingDiff(g)], p.timeRemaining + FinalTimes(g))
  }

  /** A side filled from the games `gs`, in order. */
  function PatternsOf(gs: seq<ParsedGame>): PatternSide {
    Fold(gs, NoPatterns, AddPattern)
  }

  /** One entry of `quick_losses`. */
  datatype QuickLoss = QuickLoss(moves: nat, opening: string, phase: Phase)

  /** A loss in fewer than `QUICK_LOSS_MOVES` moves. */
  predicate IsQuickLoss(g: ParsedGame) { Lost(g) && g.totalMoves < QuickLossMoves }

  function QuickLossOf(g: ParsedGame): QuickLoss {
    QuickLoss(g.totalMoves, g.opening, g.endPhase)
  }

  /** The quick losses among `gs`, in order. */
  function QuickLosses(gs: seq<ParsedGame>): seq<QuickLoss> {
    if gs == [] then []
    else QuickLosses(gs[..|gs| - 1]) + (if IsQuickLoss(gs[|gs| - 1]) then [QuickLossOf(gs[|gs| - 1])] else [])
  }

  datatype PatternMetrics = PatternMetrics(
    winPatterns: PatternSide,
    lossPatterns: PatternSide,
    quickLosses: seq<QuickLoss>,
    quickLossRate: real)

  /** The value `_calculate_pattern_metrics` returns. */
  function PatternMetricsSpec(games: seq<ParsedGame>): PatternMetrics {
    var quick := QuickLosses(games);
    PatternMetrics(PatternsOf(Filter(games, Won)), PatternsOf(Filter(games, Lost)), quick, Percent(|quick|, |games|))
  }

  /** `_calculate_pattern_metrics`: one loop sending wins and losses to their side and skipping draws. */
  method PatternMetricsOf(games: seq<ParsedGame>) returns (m: PatternMetrics)
    ensures m == PatternMetricsSpec(games)
  {
    var wins, losses := NoPatterns, NoPatterns;
    var quick := [];
    for i := 0 to |games|
      invariant wins == FoldWhere(games[..i], Won, NoPatterns, AddPattern)
      invariant losses == FoldWhere(games[..i], Lost, NoPatterns, AddPattern)
      invariant quick == QuickLosses(games[..i])
    {
      var g := games[i];
      assert games[..i + 1][..i] == games[..i];
      if Won(g) {
        wins := AddPattern(wins, g);
      } else if Lost(g) {
        losses := AddPattern(losses, g);
        if g.totalMoves < QuickLossMoves {
          quick := quick + [QuickLossOf(g)];
        }
      }
    }
    assert games[..|games|] == games;
    FoldWhereIsFoldFilter(games, Won, NoPatterns, AddPattern);
    FoldWhereIsFoldFilter(games, Lost, NoPatterns, AddPattern);
    m := PatternMetrics(wins, losses, quick, Percent(|quick|, |games|));
  }

  /**
   * A side holds the termination histogram of its games, their lengths and
   * rating differences in order, and one remaining time per game with time
   * data.
   */
  lemma {:induction false} PatternsMeaning(gs: seq<ParsedGame>)
    ensures PatternsOf(gs).termination == Counted(gs, TerminationOf)
    ensures PatternsOf(gs).gameLength == MapSeq(gs, TotalMovesOf)
    ensures PatternsOf(gs).ratingDiff == MapSeq(gs, RatingDiff)
    ensures |PatternsOf(gs).timeRemaining| == Count(gs, HasTimeData)
  {
    if gs != [] {
      var init := gs[..|gs| - 1];
      PatternsMeaning(init);
      assert gs == init + [gs[|gs| - 1]];
      MapSeqSnoc(init, gs[|gs| - 1], TotalMovesOf);
      MapSeqSnoc(init, gs[|gs| - 1], RatingDiff);
    }
  }

  /** The game has time data, hence a `final_time`. */
  predicate HasTimeData(g: ParsedGame) { g.time.Some? }

  /** Every quick loss is a loss shorter than `QUICK_LOSS_MOVES`, so there are at most as many as losses. */
  lemma {:induction false} QuickLossesFacts(gs: seq<ParsedGame>)
    ensures |QuickLosses(gs)| == Count(gs, IsQuickLoss) <= Count(gs, Lost)
    ensures forall k :: 0 <= k < |QuickLosses(gs)| ==> QuickLosses(gs)[k].moves < QuickLossMoves
  {
    if gs != [] {
      QuickLossesFacts(gs[..|gs| - 1]);
    }
  }

  /**
   * Each side's termination counts add up to its number of games, each
   * termination is listed once with the number of games that ended that way,
   * and the quick-loss rate is a percentage.
   */
  lemma PatternMetricsFacts(games: seq<ParsedGame>)
    ensures var m := PatternMetricsSpec(games);
      && m.winPatterns.termination == Histogram(Filter(games, Won), TerminationOf)
      && m.lossPatterns.termination == Histogram(Filter(games, Lost), TerminationOf)
      && SumCounts(m.winPatterns.termination) == Count(games, Won)
      && SumCounts(m.lossPatterns.termination) == Count(games, Lost)
      && |m.winPatterns.gameLength| == Count(games, Won)
      && |m.quickLosses| <= Count(games, Lost)
      && 0.0 <= m.quickLossRate <= 100.0
  {
    PatternsMeaning(Filter(games, Won));
    PatternsMeaning(Filter(games, Lost));
    CountedIsHistogram(Filter(games, Won), TerminationOf);
    CountedIsHistogram(Filter(games, Lost), TerminationOf);
    HistogramTotal(Filter(games, Won), TerminationOf);
    HistogramTotal(Filter(games, Lost), TerminationOf);
    QuickLossesFacts(games);
    CountMono(games, Lost, AnyGame);
    CountEverything(games, AnyGame);
  }

  // ---------------------------------------------------------------------------
  // _calculate_opponent_metrics
  // ---------------------------------------------------------------------------

  /** The four keys of `rating_ranges`. */
  datatype RatingRange = Under600 | From600To700 | From700To800 | From800

  const AllRanges: set<RatingRange> := {Under600, From600To700, From700To800, From800}

  /** The range an opponent rating falls in: the first bound it is below. */
  function RangeOf(g: ParsedGame): (r: RatingRange)
    ensures r == Under600 <==> OpponentRating(g) < 600
    ensures r == From600To700 <==> 600 <= OpponentRating(g) < 700
    ensures r == From700To800 <==> 700 <= OpponentRating(g) < 800
    ensures r == From800 <==> 800 <= OpponentRating(g)
  {
    var rating := OpponentRating(g);
    if rating < 600 then Under600 else if rating < 700 then From600To700 else if rating < 800 then From700To800 else From800
  }

  /** One entry of `rating_distribution` after the rate pass. */
  datatype RangeLine = RangeLine(games: nat, wins: nat, winRate: real)

  function RangeLineOf(c: WinTally): RangeLine {
    RangeLine(c.games, c.wins, Percent(c.wins, c.games))
  }

  /** The counter of the games of `s` whose opponent rating falls in range `r`. */
  function RangeCount(s: seq<ParsedGame>, r: RatingRange): WinTally {
    Fold(Select(s, RangeOf, r), TallyZero, TallyStep)
  }

  /** The four counters after the games `s`: every range starts at zero. */
  function RangeCounters(s: seq<ParsedGame>): map<RatingRange, WinTally> {
    map r | r in AllRanges :: RangeCount(s, r)
  }

  datatype OpponentMetrics = OpponentMetrics(
    ratingDistribution: map<RatingRange, RangeLine>,
    avgOppWhenWinning: real,
    avgOppWhenLosing: real)

  /** The value `_calculate_opponent_metrics` returns. */
  function OpponentMetricsSpec(games: seq<ParsedGame>): OpponentMetrics {
    var counters := RangeCounters(games);
    OpponentMetrics(
      map r | r in AllRanges :: RangeLineOf(counters[r]),
      Average(Sum(Filter(games, Won), OpponentRating) as real, Count(games, Won)),
      Average(Sum(Filter(games, Lost), OpponentRating) as real, Count(games, Lost)))
  }

  /** `ranges` holds a counter for each of the four ranges, counting the games of `s` in it. */
  predicate CountsRanges(ranges: map<RatingRange, WinTally>, s: seq<ParsedGame>) {
    ranges.Keys == AllRanges && forall r :: r in ranges ==> ranges[r] == RangeCount(s, r)
  }

  /** One more game moves the counter of its range and leaves the others. */
  lemma RangeCountSnoc(s: seq<ParsedGame>, x: ParsedGame, r: RatingRange)
    ensures RangeCount(s + [x], r) == if RangeOf(x) == r then TallyStep(RangeCount(s, r), x) else RangeCount(s, r)
  {
    SelectSnoc(s, x, RangeOf, r);
    if RangeOf(x) == r {
      FoldSnoc(Select(s, RangeOf, r), x, TallyZero, TallyStep);
    } else {
      assert Select(s + [x], RangeOf, r) == Select(s, RangeOf, r);
    }
  }

  /** Counting one more game in its own range keeps the counters exact. */
  lemma CountsRangesSnoc(ranges: map<RatingRange, WinTally>, s: seq<ParsedGame>, x: ParsedGame)
    requires CountsRanges(ranges, s)
    ensures CountsRanges(ranges[RangeOf(x) := TallyStep(ranges[RangeOf(x)], x)], s + [x])
  {
    var after := ranges[RangeOf(x) := TallyStep(ranges[RangeOf(x)], x)];
    forall r | r in after
      ensures after[r] == RangeCount(s + [x], r)
    {
      RangeCountSnoc(s, x, r);
    }
  }

  /** The opponent-rating sums and counts of the wins and of the losses among `s`. */
  predicate OpponentTotals(s: seq<ParsedGame>, winSum: int, winCount: nat, lossSum: int, lossCount: nat) {
    && winSum == Sum(Filter(s, Won), OpponentRating) && winCount == Count(s, Won)
    && lossSum == Sum(Filter(s, Lost), OpponentRating) && lossCount == Count(s, Lost)
  }

  /**
   * Adding one game's opponent rating to the win or the loss totals; a game is
   * never both won and lost, so the `if`/`elif` pair acts as two separate tests.
   */
  method AddOpponent(s: seq<ParsedGame>, g: ParsedGame, winSum: int, winCount: nat, lossSum: int, lossCount: nat)
    returns (winSum': int, winCount': nat, lossSum': int, lossCount': nat)
    requires OpponentTotals(s, winSum, winCount, lossSum, lossCount)
    ensures OpponentTotals(s + [g], winSum', winCount', lossSum', lossCount')
  {
    winSum', winCount' := AddWhen(s, g, Won, OpponentRating, winSum, winCount);
    lossSum', lossCount' := AddWhen(s, g, Lost, OpponentRating, lossSum, lossCount);
  }

  /** Four counters that count the games of `s` by range are the counters `RangeCounters(s)`. */
  lemma CountsRangesAre(ranges: map<RatingRange, WinTally>, s: seq<ParsedGame>)
    requires CountsRanges(ranges, s)
    ensures ranges == RangeCounters(s)
  {
  }

  /**
   * `_calculate_opponent_metrics`: one loop counting each game in its range
   * and summing the opponent ratings of wins and of losses, then the rates.
   */
  method OpponentMetricsOf(games: seq<ParsedGame>) returns (m: OpponentMetrics)
    ensures m == OpponentMetricsSpec(games)
  {
    var counters, winSum, winCount, lossSum, lossCount := CountOpponents(games);
    CountsRangesAre(counters, games);
    m := OpponentMetrics(
      map r | r in AllRanges :: RangeLineOf(counters[r]),
      Average(winSum as real, winCount), Average(lossSum as real, lossCount));
  }

  /** The loop of `_calculate_opponent_metrics`: each game counted in its range, and the rating sums of wins and losses. */
  method CountOpponents(games: seq<ParsedGame>)
    returns (counters: map<RatingRange, WinTally>, winSum: int, winCount: nat, lossSum: int, lossCount: nat)
    ensures CountsRanges(counters, games)
    ensures OpponentTotals(games, winSum, winCount, lossSum, lossCount)
  {
    counters := map[Under600 := TallyZero, From600To700 := TallyZero, From700To800 := TallyZero, From800 := TallyZero];
    winSum, lossSum := 0, 0;
    winCount, lossCount := 0, 0;
    NothingCountedYet();
    assert games[..0] == [];
    for i := 0 to |games|
      invariant CountsRanges(counters, games[..i])
      invariant OpponentTotals(games[..i], winSum, winCount, lossSum, lossCount)
    {
      PrefixSnoc(games, i);
      counters := AddToRange(counters, games[..i], games[i]);
      winSum, winCount, lossSum, lossCount := AddOpponent(games[..i], games[i], winSum, winCount, lossSum, lossCount);
    }
    assert games[..|games|] == games;
  }

  /** Before the loop every counter is zero and so are the sums and counts. */
  lemma NothingCountedYet()
    ensures CountsRanges(map[Under600 := TallyZero, From600To700 := TallyZero, From700To800 := TallyZero, From800 := TallyZero], [])
    ensures OpponentTotals([], 0, 0, 0, 0)
  {
  }

  /** One game counted in the counter of its range. */
  method AddToRange(counters: map<RatingRange, WinTally>, s: seq<ParsedGame>, g: ParsedGame) returns (counters': map<RatingRange, WinTally>)
    requires CountsRanges(counters, s)
    ensures CountsRanges(counters', s + [g])
  {
    CountsRangesSnoc(counters, s, g);
    var r := RangeOf(g);
    counters' := counters[r := TallyStep(counters[r], g)];
  }

  /** The four ranges partition the games. */
  lemma {:induction false} RangesPartition(games: seq<ParsedGame>)
    ensures |Select(games, RangeOf, Under600)| + |Select(games, RangeOf, From600To700)|
          + |Select(games, RangeOf, From700To800)| + |Select(games, RangeOf, From800)| == |games|
  {
    if games != [] {
      var init := games[..|games| - 1];
      var x := games[|games| - 1];
      RangesPartition(init);
      assert games == init + [x];
      SelectSnoc(init, x, RangeOf, Under600);
      SelectSnoc(init, x, RangeOf, From600To700);
      SelectSnoc(init, x, RangeOf, From700To800);
      SelectSnoc(init, x, RangeOf, From800);
    }
  }

  /**
   * The four ranges' game counts add up to all games, each range counts its
   * wins among its games with a percentage win rate, and the average
   * opponent ratings are the means over wins and over losses.
   */
  lemma OpponentMetricsFacts(games: seq<ParsedGame>)
    ensures var d := OpponentMetricsSpec(games).ratingDistribution;
      && d.Keys == AllRanges
      && d[Under600].games + d[From600To700].games + d[From700To800].games + d[From800].games == |games|
      && (forall r | r in d :: d[r].games == |Select(games, RangeOf, r)| && d[r].wins <= d[r].games
                             && 0.0 <= d[r].winRate <= 100.0)
    ensures Count(games, Won) > 0 ==>
      IsMeanOf(OpponentMetricsSpec(games).avgOppWhenWinning, Sum(Filter(games, Won), OpponentRating) as real, Count(games, Won))
    ensures Count(games, Lost) > 0 ==>
      IsMeanOf(OpponentMetricsSpec(games).avgOppWhenLosing, Sum(Filter(games, Lost), OpponentRating) as real, Count(games, Lost))
  {
    forall r | r in AllRanges
      ensures Fold(Select(games, RangeOf, r), TallyZero, TallyStep)
           == WinTally(|Select(games, RangeOf, r)|, Count(Select(games, RangeOf, r), Won))
    {
      TallyFoldCounts(Select(games, RangeOf, r));
    }
    RangesPartition(games);
    if Count(games, Won) > 0 {
      AverageScales(Sum(Filter(games, Won), OpponentRating) as real, Count(games, Won));
    }
    if Count(games, Lost) > 0 {
      AverageScales(Sum(Filter(games, Lost), OpponentRating) as real, Count(games, Lost));
    }
  }

  // ---------------------------------------------------------------------------
  // _calculate_psychological_metrics
  // ---------------------------------------------------------------------------

  /** The sort key `date`. */
  predicate EarlierDate(a: ParsedGame, b: ParsedGame) { a.date < b.date }

  function HourOfGame(g: ParsedGame): nat { g.hourOfDay }

  /** `date.date()`: the local calendar day a game was played on. */
  function DayKey(g: ParsedGame): int { DayOf(g.date) }

  /** An entry `(hour, win_rate, games)` of `best_hours`. */
  datatype HourLine = HourLine(hour: nat, winRate: real, games: nat)

  /** Fewest games an hour needs to be ranked. */
  const MinHourGames: nat := 5

  /** The counter of the games played at `hour`. */
  function HourCounter(games: seq<ParsedGame>, hour: nat): WinTally {
    Fold(Select(games, HourOfGame, hour), TallyZero, TallyStep)
  }

  /** The entries built from the hours `hours`, in order, for those with at least five games. */
  function HourLines(games: seq<ParsedGame>, hours: seq<nat>): seq<HourLine> {
    if hours == [] then []
    else
      var h := hours[|hours| - 1];
      var c := HourCounter(games, h);
      HourLines(games, hours[..|hours| - 1]) + (if c.games >= MinHourGames then [HourLine(h, Percent(c.wins, c.games), c.games)] else [])
  }

  /** The sort key `win_rate`, descending; Python's `reverse=True` keeps the sort stable. */
  predicate HigherRate(a: HourLine, b: HourLine) { a.winRate > b.winRate }

  /** Fewest games a day needs to count as a session. */
  const MinSessionGames: nat := 3

  /**
   * The win rates of the sessions among the days `days` of `sorted`, in
   * order: the `'5-10'` bucket takes sessions of at most ten games, the
   * `'20+'` bucket (`marathon`) the longer ones.
   */
  function SessionRates(sorted: seq<ParsedGame>, days: seq<int>, marathon: bool): seq<real> {
    if days == [] then []
    else SessionRates(sorted, days[..|days| - 1], marathon) + SessionEntry(Select(sorted, DayKey, days[|days| - 1]), marathon)
  }

  /** What one day's games add to a bucket: their win rate when they form a session of that bucket's length. */
  function SessionEntry(session: seq<ParsedGame>, marathon: bool): (r: seq<real>)
    ensures |r| <= 1
    ensures r != [] <==> |session| >= MinSessionGames && (|session| > 10) == marathon
    ensures forall k :: 0 <= k < |r| ==> 0.0 <= r[k] <= 100.0
  {
    if |session| >= MinSessionGames && (|session| > 10) == marathon then [Percent(Count(session, Won), |session|)] else []
  }

  /** One more day adds its session, if it is one, to the bucket its length picks. */
  lemma SessionRatesSnoc(sorted: seq<ParsedGame>, days: seq<int>, day: int, session: seq<ParsedGame>)
    requires session == Select(sorted, DayKey, day)
    ensures SessionRates(sorted, days + [day], false) == SessionRates(sorted, days, false) + SessionEntry(session, false)
    ensures SessionRates(sorted, days + [day], true) == SessionRates(sorted, days, true) + SessionEntry(session, true)
  {
    assert (days + [day])[..|days|] == days;
  }

  datatype PsychologicalMetrics = PsychologicalMetrics(
    maxWinStreak: nat,
    maxLossStreak: nat,
    longestLosingStreak: nat,
    recoveryRate: real,
    bestHours: seq<HourLine>,
    bestHour: nat,
    bestHourWinRate: real,
    bestSessionLength: string,
    bestSessionWinRate: real,
    marathonWinRate: real,
    totalSessions: nat)

  /** The results of the games in date order, the sequence the streak and recovery loops walk. */
  function DateResults(games: seq<ParsedGame>): seq<ResultType> {
    MapSeq(SortBy(games, EarlierDate), ResultOf)
  }

  /** The hours with at least five games, ranked by descending win rate. */
  function RankedHours(games: seq<ParsedGame>): seq<HourLine> {
    SortBy(HourLines(games, Keys(games, HourOfGame)), HigherRate)
  }

  /** The days on which games were played, in the order of the date-sorted games. */
  function SessionDays(games: seq<ParsedGame>): seq<int> {
    Keys(SortBy(games, EarlierDate), DayKey)
  }

  /** The session rates of one bucket, over the date-sorted games. */
  function BucketRates(games: seq<ParsedGame>, marathon: bool): seq<real> {
    SessionRates(SortBy(games, EarlierDate), SessionDays(games), marathon)
  }

  /** The mean of a bucket's rates, or the fixed `fallback` when the bucket is empty. */
  function BucketMean(rates: seq<real>, fallback: real): real {
    if rates == [] then fallback else Mean(rates)
  }

  /** The value `_calculate_psychological_metrics` returns. */
  function PsychologicalSpec(games: seq<ParsedGame>): PsychologicalMetrics {
    var results := DateResults(games);
    var best := RankedHours(games);
    PsychologicalMetrics(
      Streaks.LongestRecorded(results, Win, |results|), Streaks.LongestRecorded(results, Loss, |results|),
      Streaks.LongestRecorded(results, Loss, |results|), Streaks.RecoveryRate(results),
      Take(best, 3), if best == [] then 20 else best[0].hour, if best == [] then 60.0 else best[0].winRate,
      "5-10", BucketMean(BucketRates(games, false), 65.0), BucketMean(BucketRates(games, true), 24.4),
      |SessionDays(games)|)
  }

  /** One more hour adds its entry when it has at least five games. */
  lemma HourLinesSnoc(games: seq<ParsedGame>, hours: seq<nat>, h: nat)
    ensures var c := HourCounter(games, h);
      HourLines(games, hours + [h]) == HourLines(games, hours) + (if c.games >= MinHourGames then [HourLine(h, Percent(c.wins, c.games), c.games)] else [])
  {
    assert (hours + [h])[..|hours|] == hours;
  }

  /** `counters` holds, for each hour of `hours`, the tally of the games played at that hour. */
  predicate HourCounters(games: seq<ParsedGame>, hours: seq<nat>, counters: seq<WinTally>) {
    |counters| == |hours| && forall i :: 0 <= i < |hours| ==> counters[i] == HourCounter(games, hours[i])
  }

  /** The per-hour counting loop: the hours in first-seen order and each hour's tally. */
  method CountHours(games: seq<ParsedGame>) returns (hours: seq<nat>, counters: seq<WinTally>)
    ensures hours == Keys(games, HourOfGame)
    ensures HourCounters(games, hours, counters)
  {
    var hourStats;
    hours, hourStats := GroupFold(games, HourOfGame, TallyZero, TallyStep);
    counters := ValuesInOrder(hours, hourStats);
    forall i | 0 <= i < |hours|
      ensures counters[i] == HourCounter(games, hours[i])
    {
      assert hours[i] in hours;
    }
  }

  /** The entries of the hours with at least five games, in the order of `hours`. */
  method ListHours(games: seq<ParsedGame>, hours: seq<nat>, counters: seq<WinTally>) returns (lines: seq<HourLine>)
    requires HourCounters(games, hours, counters)
    ensures lines == HourLines(games, hours)
  {
    lines := [];
    for i := 0 to |hours|
      invariant lines == HourLines(games, hours[..i])
    {
      var h, c := hours[i], counters[i];
      PrefixSnoc(hours, i);
      HourLinesSnoc(games, hours[..i], h);
      if c.games >= MinHourGames {
        lines := lines + [HourLine(h, Percent(c.wins, c.games), c.games)];
      }
    }
    assert hours[..|hours|] == hours;
  }

  /** The per-hour counting loop and the ranking of the hours with at least five games. */
  method BestHoursOf(games: seq<ParsedGame>) returns (best: seq<HourLine>)
    ensures best == RankedHours(games)
  {
    var hours, counters := CountHours(games);
    var lines := ListHours(games, hours, counters);
    best := SortBy(lines, HigherRate);
  }

  /** One day's games: a session of three to ten games goes to the short bucket, a longer one to the long bucket. */
  method AddSession(short: seq<real>, long: seq<real>, session: seq<ParsedGame>) returns (short': seq<real>, long': seq<real>)
    ensures short' == short + SessionEntry(session, false)
    ensures long' == long + SessionEntry(session, true)
  {
    short', long' := short, long;
    if |session| >= MinSessionGames {
      var rate := Percent(Count(session, Won), |session|);
      if |session| <= 5 {
        short' := short' + [rate];
      } else if |session| <= 10 {
        short' := short' + [rate];
      } else {
        long' := long' + [rate];
      }
    }
  }

  /** `sessions` holds, for each day of `days`, that day's games among `sorted`. */
  predicate DaySessions(sorted: seq<ParsedGame>, days: seq<int>, sessions: seq<seq<ParsedGame>>) {
    |sessions| == |days| && forall i :: 0 <= i < |days| ==> sessions[i] == Select(sorted, DayKey, days[i])
  }

  /** The per-day grouping of the date-sorted games: the days in first-seen order and each day's games. */
  method DailyGames(sorted: seq<ParsedGame>) returns (days: seq<int>, sessions: seq<seq<ParsedGame>>)
    ensures days == Keys(sorted, DayKey)
    ensures DaySessions(sorted, days, sessions)
  {
    var daily;
    days, daily := GroupFold(sorted, DayKey, [], Append);
    sessions := ValuesInOrder(days, daily);
    forall i | 0 <= i < |days|
      ensures sessions[i] == Select(sorted, DayKey, days[i])
    {
      assert days[i] in days;
      FoldAppend(Select(sorted, DayKey, days[i]));
    }
  }

  /** The session loop over the days: each day's games go to the bucket their length picks. */
  method SessionBuckets(sorted: seq<ParsedGame>, days: seq<int>, sessions: seq<seq<ParsedGame>>)
    returns (short: seq<real>, long: seq<real>)
    requires DaySessions(sorted, days, sessions)
    ensures short == SessionRates(sorted, days, false)
    ensures long == SessionRates(sorted, days, true)
  {
    short, long := [], [];
    for i := 0 to |days|
      invariant short == SessionRates(sorted, days[..i], false)
      invariant long == SessionRates(sorted, days[..i], true)
    {
      PrefixSnoc(days, i);
      SessionRatesSnoc(sorted, days[..i], days[i], sessions[i]);
      short, long := AddSession(short, long, sessions[i]);
    }
    assert days[..|days|] == days;
  }

  /** The per-day grouping of the date-sorted games and the session loop over the days. */
  method SessionsOf(sorted: seq<ParsedGame>) returns (days: seq<int>, short: seq<real>, long: seq<real>)
    ensures days == Keys(sorted, DayKey)
    ensures short == SessionRates(sorted, days, false)
    ensures long == SessionRates(sorted, days, true)
  {
    var sessions;
    days, sessions := DailyGames(sorted);
    short, long := SessionBuckets(sorted, days, sessions);
  }

  /**
   * `_calculate_psychological_metrics`: the games sorted by date, the streak
   * and recovery loops over their results, the per-hour ranking over the
   * games in their original order, and the sessions.
   */
  method PsychologicalMetricsOf(games: seq<ParsedGame>) returns (m: PsychologicalMetrics)
    ensures m == PsychologicalSpec(games)
  {
    var sorted := SortBy(games, EarlierDate);
    var results := MapSeq(sorted, ResultOf);
    var maxWin, maxLoss := Streaks.MaxStreaks(results);
    var gamesAfterLoss, winsAfterLoss := Streaks.Recovery(results);
    var recovery := Percent(winsAfterLoss, gamesAfterLoss);
    var best := BestHoursOf(games);
    var days, short, long := SessionsOf(sorted);
    m := PsychologicalMetrics(
      maxWin, maxLoss, maxLoss, recovery,
      Take(best, 3), if best == [] then 20 else best[0].hour, if best == [] then 60.0 else best[0].winRate,
      "5-10", BucketMean(short, 65.0), BucketMean(long, 24.4), |days|);
  }

  /** An hour gets an entry exactly when it is listed and has at least five games; the entry holds its counts. */
  lemma {:induction false} HourLinesExactly(games: seq<ParsedGame>, hours: seq<nat>, line: HourLine)
    ensures line in HourLines(games, hours) <==>
      line.hour in hours && HourCounter(games, line.hour).games >= MinHourGames
      && line == HourLine(line.hour, Percent(HourCounter(games, line.hour).wins, HourCounter(games, line.hour).games),
                          HourCounter(games, line.hour).games)
  {
    if hours != [] {
      HourLinesExactly(games, hours[..|hours| - 1], line);
      assert line.hour in hours <==> line.hour in hours[..|hours| - 1] || line.hour == hours[|hours| - 1];
    }
  }

  /**
   * `best_hours` holds the min(3, n) best-rated of the n ranked hours, by
   * descending win rate, and no ranked hour left out has a higher rate than
   * one kept; each was played at least five times, its entry counts the games
   * played at that hour, and its rate is a percentage. `best_hour` is the
   * first of them, 20 when there is none.
   */
  lemma BestHoursFacts(games: seq<ParsedGame>)
    ensures var m := PsychologicalSpec(games);
      && |m.bestHours| == (if |RankedHours(games)| < 3 then |RankedHours(games)| else 3)
      && SortedBy(m.bestHours, HigherRate)
      && (forall k, x :: 0 <= k < |m.bestHours| && x in RankedHours(games) && x !in m.bestHours ==>
            x.winRate <= m.bestHours[k].winRate)
      && HourEntriesCounted(games, m.bestHours)
      && m.bestHour == (if m.bestHours == [] then 20 else m.bestHours[0].hour)
  {
    var best := Take(RankedHours(games), 3);
    assert PsychologicalSpec(games).bestHours == best;
    TopHoursSorted(games, best);
    TopHoursCounted(games, best);
    SortBySorted(HourLines(games, Keys(games, HourOfGame)), HigherRate);
    TakeOfSorted(RankedHours(games), 3, HigherRate);
  }

  /** Each entry is an hour played at least five times, holding the number of games played then and a percentage. */
  predicate HourEntriesCounted(games: seq<ParsedGame>, lines: seq<HourLine>) {
    forall k :: 0 <= k < |lines| ==>
      && lines[k].games >= MinHourGames && lines[k].games == |Select(games, HourOfGame, lines[k].hour)|
      && 0.0 <= lines[k].winRate <= 100.0
  }

  /** The listed hours come best win rate first. */
  lemma TopHoursSorted(games: seq<ParsedGame>, best: seq<HourLine>)
    requires best == Take(RankedHours(games), 3)
    ensures SortedBy(best, HigherRate)
  {
    SortBySorted(HourLines(games, Keys(games, HourOfGame)), HigherRate);
  }

  /** Each listed hour was played at least five times and holds its game count and a percentage. */
  lemma TopHoursCounted(games: seq<ParsedGame>, best: seq<HourLine>)
    requires best == Take(RankedHours(games), 3)
    ensures HourEntriesCounted(games, best)
  {
    var ranked := RankedHours(games);
    forall k | 0 <= k < |best|
      ensures && best[k].games >= MinHourGames && best[k].games == |Select(games, HourOfGame, best[k].hour)|
              && 0.0 <= best[k].winRate <= 100.0
    {
      RankedHourEntry(games, ranked, k);
    }
  }

  /** A ranked entry is an hour played at least five times, holding its game count and a percentage. */
  lemma RankedHourEntry(games: seq<ParsedGame>, ranked: seq<HourLine>, k: nat)
    requires ranked == RankedHours(games)
    requires k < |ranked|
    ensures && ranked[k].games >= MinHourGames && ranked[k].games == |Select(games, HourOfGame, ranked[k].hour)|
            && 0.0 <= ranked[k].winRate <= 100.0
  {
    var e := ranked[k];
    assert e in multiset(ranked);
    assert e in HourLines(games, Keys(games, HourOfGame));
    HourLinesExactly(games, Keys(games, HourOfGame), e);
    TallyFoldCounts(Select(games, HourOfGame, e.hour));
  }

  /** Every session rate is a percentage. */
  lemma {:induction false} SessionRatesBounded(sorted: seq<ParsedGame>, days: seq<int>, marathon: bool)
    ensures forall k :: 0 <= k < |SessionRates(sorted, days, marathon)| ==> 0.0 <= SessionRates(sorted, days, marathon)[k] <= 100.0
  {
    if days != [] {
      SessionRatesBounded(sorted, days[..|days| - 1], marathon);
    }
  }

  /** The session win rates are percentages, whether measured or the defaults 65 and 24.4. */
  lemma SessionRatesFacts(games: seq<ParsedGame>)
    ensures 0.0 <= PsychologicalSpec(games).bestSessionWinRate <= 100.0
    ensures 0.0 <= PsychologicalSpec(games).marathonWinRate <= 100.0
  {
    var sorted := SortBy(games, EarlierDate);
    var days := SessionDays(games);
    SessionRatesBounded(sorted, days, false);
    SessionRatesBounded(sorted, days, true);
    if BucketRates(games, false) != [] {
      MeanBounds(BucketRates(games, false), 0.0, 100.0);
    }
    if BucketRates(games, true) != [] {
      MeanBounds(BucketRates(games, true), 0.0, 100.0);
    }
  }

  /** A day is a session day exactly when some game was played on it. */
  lemma SessionDaysExactly(games: seq<ParsedGame>, day: int)
    ensures day in SessionDays(games) <==> exists i :: 0 <= i < |games| && DayKey(games[i]) == day
  {
    var sorted := SortBy(games, EarlierDate);
    KeysExactly(sorted, DayKey, day);
    if HasKey(sorted, DayKey, day) {
      var i :| 0 <= i < |sorted| && DayKey(sorted[i]) == day;
      assert sorted[i] in multiset(games);
      var j :| 0 <= j < |games| && games[j] == sorted[i];
    }
    if exists i :: 0 <= i < |games| && DayKey(games[i]) == day {
      var i :| 0 <= i < |games| && DayKey(games[i]) == day;
      assert games[i] in multiset(sorted);
      var j :| 0 <= j < |sorted| && sorted[j] == games[i];
    }
  }

  /** No win or loss run of the date-ordered results that the loop records is longer than the maximum it reports. */
  lemma StreakBounds(games: seq<ParsedGame>, a: nat, b: nat)
    ensures Streaks.RecordedStreak(DateResults(games), a, b, Win) ==> b - a <= PsychologicalSpec(games).maxWinStreak
    ensures Streaks.RecordedStreak(DateResults(games), a, b, Loss) ==> b - a <= PsychologicalSpec(games).maxLossStreak
  {
    var results := DateResults(games);
    if Streaks.RecordedStreak(results, a, b, Win) {
      Streaks.LongestBoundsStreaks(results, Win, |results|, a, b);
    }
    if Streaks.RecordedStreak(results, a, b, Loss) {
      Streaks.LongestBoundsStreaks(results, Loss, |results|, a, b);
    }
  }

  /** A positive maximum streak is the length of a run the loop records. */
  lemma StreaksAttained(games: seq<ParsedGame>)
    ensures PsychologicalSpec(games).maxWinStreak > 0 ==> Streaks.StreakOfLength(DateResults(games), Win, PsychologicalSpec(games).maxWinStreak)
    ensures PsychologicalSpec(games).maxLossStreak > 0 ==> Streaks.StreakOfLength(DateResults(games), Loss, PsychologicalSpec(games).maxLossStreak)
  {
    var results := DateResults(games);
    var m := PsychologicalSpec(games);
    assert m.maxWinStreak == Streaks.LongestRecorded(results, Win, |results|);
    assert m.maxLossStreak == Streaks.LongestRecorded(results, Loss, |results|);
    Streaks.LongestHasLength(results, Win);
    Streaks.LongestHasLength(results, Loss);
  }
}
