/**
 * The summary statistics of the older `ChessAnalyzer` in `main.py`
 * (`calculate_basic_stats`, `analyze_openings`, `analyze_game_phases`) as
 * specification functions over the list of analyses, with the facts the
 * code promises about them. The loops themselves are the methods of
 * `LegacyAnalyzer.ChessAnalyzer`.
 */
module LegacyStats {
  import opened Wrappers
  import opened Tally
  import opened Grouping
  import opened GameParser
  import opened LegacyGame

  /** `MIN_GAMES_FOR_PATTERN`. */
  const MinGamesForPattern: nat := 3

  // ---------------------------------------------------------------------------
  // Fields of an analysis, as predicates and key functions
  // ---------------------------------------------------------------------------

  predicate Won(a: Analysis) { a.colorData.resultType == Win }
  predicate Lost(a: Analysis) { a.colorData.resultType == Loss }
  predicate Drew(a: Analysis) { a.colorData.resultType == Draw }
  predicate Decided(a: Analysis) { Won(a) || Lost(a) }
  predicate AnyAnalysis(a: Analysis) { true }
  predicate AsWhite(a: Analysis) { a.colorData.color == White }
  predicate AsBlack(a: Analysis) { a.colorData.color == Black }

  function ResultOf(a: Analysis): ResultType { a.colorData.resultType }
  function PlayerRating(a: Analysis): int { a.colorData.playerRating }
  function OpponentRating(a: Analysis): int { a.colorData.opponentRating }
  function TimeControlOf(a: Analysis): string { a.timeControl }
  function OpeningOf(a: Analysis): string { a.opening }
  function EndPhaseOf(a: Analysis): Phase { a.endPhase }

  /** The end phase of an analysis is the phase its move count falls in, as `analyze_single_game` sets it. */
  predicate PhaseConsistent(a: Analysis) {
    a.endPhase == PhaseOf(a.totalMoves)
  }

  /** Every analysis `analyze_single_game` produces has the end phase of its move count. */
  lemma AnalysesPhaseConsistent(games: seq<RawGame>, username: string, localTime: int -> int)
    ensures forall k :: 0 <= k < |Analyzed(games, username, localTime)| ==> PhaseConsistent(Analyzed(games, username, localTime)[k])
  {
    var ok := Filter(games, (g: RawGame) => Succeeds(g, username, localTime));
    AnalyzedIsFilter(games, username, localTime);
    forall k | 0 <= k < |Analyzed(games, username, localTime)|
      ensures PhaseConsistent(Analyzed(games, username, localTime)[k])
    {
      assert Succeeds(ok[k], username, localTime);
    }
  }

  /** Every analysis is a win, a loss or a draw, and exactly one of them. */
  lemma ResultPartition(gs: seq<Analysis>)
    ensures Count(gs, Won) + Count(gs, Lost) + Count(gs, Drew) == |gs|
  {
    CountDisjoint(gs, Won, Lost, Decided);
    CountDisjoint(gs, Decided, Drew, AnyAnalysis);
    CountEverything(gs, AnyAnalysis);
  }

  /** Every analysis is White's or Black's. */
  lemma ColorPartition(gs: seq<Analysis>)
    ensures Count(gs, AsWhite) + Count(gs, AsBlack) == |gs|
  {
    CountDisjoint(gs, AsWhite, AsBlack, AnyAnalysis);
    CountEverything(gs, AnyAnalysis);
  }

  // ---------------------------------------------------------------------------
  // calculate_basic_stats
  // ---------------------------------------------------------------------------

  /** A `{'total', 'wins'}` (or `{'games', 'wins'}`) counter of a `defaultdict`. */
  datatype WinCounter = WinCounter(total: nat, wins: nat)

  const CounterZero := WinCounter(0, 0)

  /** One game counted: the total goes up, and the wins for a win. */
  function CounterStep(c: WinCounter, a: Analysis): WinCounter {
    WinCounter(c.total + 1, c.wins + if Won(a) then 1 else 0)
  }

  /** A counter fed a list holds its length and its wins. */
  lemma {:induction false} CounterFoldCounts(s: seq<Analysis>)
    ensures Fold(s, CounterZero, CounterStep) == WinCounter(|s|, Count(s, Won))
  {
    if s != [] {
      CounterFoldCounts(s[..|s| - 1]);
    }
  }

  /** `time_control_stats`: one counter per time control that occurs. */
  function TimeControlTable(gs: seq<Analysis>): map<string, WinCounter> {
    map k | k in Keys(gs, TimeControlOf) :: Fold(Select(gs, TimeControlOf, k), CounterZero, CounterStep)
  }

  /** The dict `calculate_basic_stats` returns. */
  datatype BasicStats = BasicStats(
    totalGames: nat,
    wins: nat,
    losses: nat,
    draws: int,
    winRate: real,
    whiteGames: nat,
    whiteWinRate: real,
    blackGames: nat,
    blackWinRate: real,
    avgPlayerRating: real,
    avgOpponentRating: real,
    timeControlStats: map<string, WinCounter>)

  /** The exception an unguarded division by zero raises. */
  datatype Failure = DivisionByZero

  /**
   * `calculate_basic_stats`: the averages divide by the number of games
   * without a guard, so an empty list raises.
   */
  function BasicStatsSpec(gs: seq<Analysis>): (r: Result<BasicStats, Failure>)
    ensures r.Err? <==> gs == []
  {
    if gs == [] then Err(DivisionByZero)
    else
      var white := Filter(gs, AsWhite);
      var black := Filter(gs, AsBlack);
      var wins := Count(gs, Won);
      var losses := Count(gs, Lost);
      Ok(BasicStats(
        |gs|, wins, losses, |gs| - wins - losses, Percent(wins, |gs|),
        |white|, Percent(Count(white, Won), |white|), |black|, Percent(Count(black, Won), |black|),
        Average(Sum(gs, PlayerRating) as real, |gs|), Average(Sum(gs, OpponentRating) as real, |gs|),
        TimeControlTable(gs)))
  }

  /**
   * Draws are the games neither won nor lost; the colours split the games;
   * the rates are percentages and the rating averages means; the time
   * control table has an entry for exactly the time controls played, holding
   * the number of games and wins under each.
   */
  lemma BasicStatsFacts(gs: seq<Analysis>)
    requires gs != []
    ensures var s := BasicStatsSpec(gs).value;
      && s.totalGames == |gs| && s.wins == Count(gs, Won) && s.losses == Count(gs, Lost)
      && s.draws == Count(gs, Drew) && s.wins + s.losses + s.draws == s.totalGames
      && s.whiteGames + s.blackGames == s.totalGames
      && IsPercentOf(s.winRate, s.wins, s.totalGames) && 0.0 <= s.winRate <= 100.0
      && 0.0 <= s.whiteWinRate <= 100.0 && 0.0 <= s.blackWinRate <= 100.0
      && IsMeanOf(s.avgPlayerRating, Sum(gs, PlayerRating) as real, |gs|)
      && IsMeanOf(s.avgOpponentRating, Sum(gs, OpponentRating) as real, |gs|)
  {
    ResultPartition(gs);
    ColorPartition(gs);
    PercentScales(Count(gs, Won), |gs|);
    AverageScales(Sum(gs, PlayerRating) as real, |gs|);
    AverageScales(Sum(gs, OpponentRating) as real, |gs|);
  }

  /** The time control table counts, for each time control played, its games and wins. */
  lemma TimeControlTableCounts(gs: seq<Analysis>, tc: string)
    ensures tc in TimeControlTable(gs) <==> HasKey(gs, TimeControlOf, tc)
    ensures tc in TimeControlTable(gs) ==>
      var gsTc := Select(gs, TimeControlOf, tc);
      TimeControlTable(gs)[tc] == WinCounter(|gsTc|, Count(gsTc, Won)) && |gsTc| > 0
  {
    KeysExactly(gs, TimeControlOf, tc);
    if tc in TimeControlTable(gs) {
      CounterFoldCounts(Select(gs, TimeControlOf, tc));
      var j :| 0 <= j < |gs| && TimeControlOf(gs[j]) == tc;
      SelectHas(gs, TimeControlOf, j);
    }
  }

  // ---------------------------------------------------------------------------
  // analyze_openings
  // ---------------------------------------------------------------------------

  /** The keys of an `opening_stats` counter. */
  const CounterKeys: set<string> := {"total", "wins", "losses", "draws"}

  /** `result_type` as the analysis stores it. */
  function ResultTypeName(t: ResultType): string {
    match t
    case Win => "win"
    case Loss => "loss"
    case Draw => "draw"
  }

  /** `result_type + 's'`: the counter key the loop looks up. */
  function ResultKey(t: ResultType): string {
    ResultTypeName(t) + "s"
  }

  /** A counter of `opening_stats`. */
  datatype OpeningCounter = OpeningCounter(total: nat, wins: nat, losses: nat, draws: nat)

  const OpeningZero := OpeningCounter(0, 0, 0, 0)

  /** `counter[key] += 1` for one of the three result keys; any other key is left alone. */
  function Increment(c: OpeningCounter, key: string): OpeningCounter {
    if key == "wins" then c.(wins := c.wins + 1)
    else if key == "losses" then c.(losses := c.losses + 1)
    else if key == "draws" then c.(draws := c.draws + 1)
    else c
  }

  /** One game of the opening loop as written: the total goes up, then the result key, if the counter has it. */
  function OpeningStep(c: OpeningCounter, a: Analysis): OpeningCounter {
    var key := ResultKey(ResultOf(a));
    var counted := c.(total := c.total + 1);
    if key in CounterKeys then Increment(counted, key) else counted
  }

  /** The key of a win is `wins` and that of a draw `draws`, but the key of a loss is `losss`, which no counter has. */
  lemma ResultKeys()
    ensures ResultKey(Win) == "wins" && ResultKey(Draw) == "draws"
    ensures ResultKey(Loss) == "losss" && ResultKey(Loss) !in CounterKeys
  {
    assert ResultKey(Loss) == "loss" + "s";
    assert "loss" + "s" == "losss";
    assert "losss" != "losses";
    assert "losss" != "wins" && "losss" != "draws" && "losss" != "total";
  }

  /**
   * The counter as written: it counts every game, the wins and the draws, but
   * its losses stay 0 whatever the games.
   */
  lemma {:induction false} OpeningFoldCounts(s: seq<Analysis>)
    ensures Fold(s, OpeningZero, OpeningStep) == OpeningCounter(|s|, Count(s, Won), 0, Count(s, Drew))
  {
    ResultKeys();
    if s != [] {
      OpeningFoldCounts(s[..|s| - 1]);
    }
  }

  /** One lost game is counted as played but not as lost. */
  lemma LossesNeverCounted(a: Analysis)
    requires Lost(a)
    ensures Fold([a], OpeningZero, OpeningStep).losses == 0 < Count([a], Lost)
  {
    OpeningFoldCounts([a]);
    assert [a][..0] == [];
  }

  /** The counter update evidently intended: each result under its own key. */
  function IntendedOpeningStep(c: OpeningCounter, a: Analysis): OpeningCounter {
    match ResultOf(a)
    case Win => c.(total := c.total + 1, wins := c.wins + 1)
    case Loss => c.(total := c.total + 1, losses := c.losses + 1)
    case Draw => c.(total := c.total + 1, draws := c.draws + 1)
  }

  /** The intended counter counts the losses, and its three result counts add up to the total. */
  lemma {:induction false} IntendedOpeningCounts(s: seq<Analysis>)
    ensures var c := Fold(s, OpeningZero, IntendedOpeningStep);
      && c == OpeningCounter(|s|, Count(s, Won), Count(s, Lost), Count(s, Drew))
      && c.wins + c.losses + c.draws == c.total
  {
    ResultPartition(s);
    if s != [] {
      IntendedOpeningCounts(s[..|s| - 1]);
    }
  }

  /**
   * The correction changes nothing but the losses: the intended counter of an
   * opening is the written one with its lost games filled in.
   */
  lemma CorrectionOnlyLosses(gs: seq<Analysis>, name: string)
    ensures var sel := Select(gs, OpeningOf, name);
      var intended := Fold(sel, OpeningZero, IntendedOpeningStep);
      && intended == OpeningCounterOf(gs, name).(losses := Count(sel, Lost))
      && intended.wins + intended.losses + intended.draws == intended.total
  {
    OpeningFoldCounts(Select(gs, OpeningOf, name));
    IntendedOpeningCounts(Select(gs, OpeningOf, name));
  }

  /** An entry of the opening list. */
  datatype OpeningLine = OpeningLine(name: string, games: nat, wins: nat, losses: nat, draws: nat, winRate: real)

  /** The counter of the games played with `name`, as the loop builds it. */
  function OpeningCounterOf(gs: seq<Analysis>, name: string): OpeningCounter {
    Fold(Select(gs, OpeningOf, name), OpeningZero, OpeningStep)
  }

  function LineOf(name: string, c: OpeningCounter): OpeningLine {
    OpeningLine(name, c.total, c.wins, c.losses, c.draws, Percent(c.wins, c.total))
  }

  /** The entries for the openings `names`, in order, for those played at least three times. */
  function OpeningLines(gs: seq<Analysis>, names: seq<string>): seq<OpeningLine> {
    if names == [] then []
    else
      var name := names[|names| - 1];
      var c := OpeningCounterOf(gs, name);
      OpeningLines(gs, names[..|names| - 1]) + (if c.total >= MinGamesForPattern then [LineOf(name, c)] else [])
  }

  /** One more opening adds its entry when it was played at least three times. */
  lemma OpeningLinesSnoc(gs: seq<Analysis>, names: seq<string>, name: string)
    ensures var c := OpeningCounterOf(gs, name);
      OpeningLines(gs, names + [name]) == OpeningLines(gs, names) + (if c.total >= MinGamesForPattern then [LineOf(name, c)] else [])
  {
    assert (names + [name])[..|names|] == names;
  }

  /** The sort key `games`, descending; Python's `reverse=True` keeps the sort stable. */
  predicate MoreGames(a: OpeningLine, b: OpeningLine) { a.games > b.games }

  /** `max(lines, key=win_rate)`: the first entry with the highest rate. */
  function ArgMaxRate(lines: seq<OpeningLine>): (i: nat)
    requires lines != []
    ensures i < |lines|
    ensures forall j :: 0 <= j < |lines| ==> lines[j].winRate <= lines[i].winRate
    ensures forall j :: 0 <= j < i ==> lines[j].winRate < lines[i].winRate
  {
    if |lines| == 1 then 0
    else
      var best := ArgMaxRate(lines[..|lines| - 1]);
      if lines[|lines| - 1].winRate > lines[best].winRate then |lines| - 1 else best
  }

  /** `min(lines, key=win_rate)`: the first entry with the lowest rate. */
  function ArgMinRate(lines: seq<OpeningLine>): (i: nat)
    requires lines != []
    ensures i < |lines|
    ensures forall j :: 0 <= j < |lines| ==> lines[i].winRate <= lines[j].winRate
    ensures forall j :: 0 <= j < i ==> lines[i].winRate < lines[j].winRate
  {
    if |lines| == 1 then 0
    else
      var worst := ArgMinRate(lines[..|lines| - 1]);
      if lines[|lines| - 1].winRate < lines[worst].winRate then |lines| - 1 else worst
  }

  /** The dict `analyze_openings` returns. */
  datatype OpeningAnalysis = OpeningAnalysis(
    repertoire: seq<OpeningLine>,
    bestOpening: Option<OpeningLine>,
    worstOpening: Option<OpeningLine>,
    totalUniqueOpenings: nat)

  /** The openings played at least three times, most played first. */
  function RankedOpenings(gs: seq<Analysis>): seq<OpeningLine> {
    SortBy(OpeningLines(gs, Keys(gs, OpeningOf)), MoreGames)
  }

  /** The value `analyze_openings` returns. */
  function OpeningAnalysisSpec(gs: seq<Analysis>): OpeningAnalysis {
    var ranked := RankedOpenings(gs);
    OpeningAnalysis(
      Take(ranked, 10),
      if ranked == [] then None else Some(ranked[ArgMaxRate(ranked)]),
      if ranked == [] then None else Some(ranked[ArgMinRate(ranked)]),
      |Keys(gs, OpeningOf)|)
  }

  /** An opening gets an entry exactly when it is listed and played at least three times; the entry holds its counter. */
  lemma {:induction false} OpeningLinesExactly(gs: seq<Analysis>, names: seq<string>, line: OpeningLine)
    ensures line in OpeningLines(gs, names) <==>
      && line.name in names
      && OpeningCounterOf(gs, line.name).total >= MinGamesForPattern
      && line == LineOf(line.name, OpeningCounterOf(gs, line.name))
  {
    if names != [] {
      OpeningLinesExactly(gs, names[..|names| - 1], line);
    }
  }

  /**
   * The counter of an opening holds its games, wins and draws, and no losses:
   * the lost games make up the rest of its total without being recorded.
   */
  lemma OpeningCounterCounts(gs: seq<Analysis>, name: string)
    ensures var sel := Select(gs, OpeningOf, name);
      var c := OpeningCounterOf(gs, name);
      && c == OpeningCounter(|sel|, Count(sel, Won), 0, Count(sel, Drew))
      && c.wins + c.draws + Count(sel, Lost) == c.total
  {
    OpeningFoldCounts(Select(gs, OpeningOf, name));
    ResultPartition(Select(gs, OpeningOf, name));
  }

  /** Moving to a more-played entry is a strict order. */
  lemma MoreGamesStrict()
    ensures StrictOrder(MoreGames)
  {
  }

  /**
   * An opening is ranked exactly when it was played at least three times;
   * its entry holds its games, its wins, its draws and no losses, so that its
   * lost games are exactly what its wins and draws leave of its games; its win
   * rate is the share of wins; the ranking is by descending games.
   */
  lemma RankedOpeningsExactly(gs: seq<Analysis>, line: OpeningLine)
    ensures line in RankedOpenings(gs) <==>
      var sel := Select(gs, OpeningOf, line.name);
      && |sel| >= MinGamesForPattern
      && line == OpeningLine(line.name, |sel|, Count(sel, Won), 0, Count(sel, Drew), Percent(Count(sel, Won), |sel|))
    ensures line in RankedOpenings(gs) ==>
      line.wins + line.draws + Count(Select(gs, OpeningOf, line.name), Lost) == line.games
    ensures SortedBy(RankedOpenings(gs), MoreGames)
  {
    var lines := OpeningLines(gs, Keys(gs, OpeningOf));
    assert line in RankedOpenings(gs) <==> line in lines by {
      assert line in RankedOpenings(gs) <==> line in multiset(RankedOpenings(gs));
      assert line in lines <==> line in multiset(lines);
    }
    OpeningLinesExactly(gs, Keys(gs, OpeningOf), line);
    OpeningCounterCounts(gs, line.name);
    KeysExactly(gs, OpeningOf, line.name);
    var sel := Select(gs, OpeningOf, line.name);
    ResultPartition(sel);
    if |sel| > 0 {
      var x := sel[0];
      assert x in sel;
      var j :| 0 <= j < |gs| && gs[j] == x;
      assert OpeningOf(gs[j]) == line.name;
    }
    MoreGamesStrict();
    SortBySorted(lines, MoreGames);
  }

  /**
   * `repertoire` holds the min(10, n) most played of the n ranked openings, no
   * ranked opening left out having more games than one kept, each played at
   * least three times,
   * with no losses recorded and its lost games the rest of its games after
   * its wins and draws; the best and worst openings exist exactly
   * when some opening was played three times, and carry the highest and the
   * lowest win rate of all ranked openings.
   */
  lemma OpeningAnalysisFacts(gs: seq<Analysis>)
    ensures var o := OpeningAnalysisSpec(gs);
      && |o.repertoire| == (if |RankedOpenings(gs)| < 10 then |RankedOpenings(gs)| else 10)
      && (forall k, x :: 0 <= k < |o.repertoire| && x in RankedOpenings(gs) && x !in o.repertoire ==>
            x.games <= o.repertoire[k].games)
      && (forall k :: 0 <= k < |o.repertoire| ==>
            var line := o.repertoire[k];
            && line.games >= MinGamesForPattern && line.losses == 0
            && line.wins + line.draws + Count(Select(gs, OpeningOf, line.name), Lost) == line.games)
      && (forall i, j :: 0 <= i < j < |o.repertoire| ==> o.repertoire[i].games >= o.repertoire[j].games)
      && (o.bestOpening.Some? <==> RankedOpenings(gs) != [])
      && (o.worstOpening.Some? <==> RankedOpenings(gs) != [])
      && (o.bestOpening.Some? ==> forall line :: line in RankedOpenings(gs) ==>
            o.worstOpening.value.winRate <= line.winRate <= o.bestOpening.value.winRate)
      && (o.bestOpening.Some? ==> o.bestOpening.value.losses == 0 && o.worstOpening.value.losses == 0)
      && o.totalUniqueOpenings == |Keys(gs, OpeningOf)|
  {
    RepertoireFacts(gs);
    ExtremeOpeningsFacts(gs);
  }

  /**
   * The repertoire: the `min(10, n)` most played ranked openings, by
   * descending games, each played at least three times with no loss recorded.
   */
  lemma RepertoireFacts(gs: seq<Analysis>)
    ensures var rep := OpeningAnalysisSpec(gs).repertoire;
      && |rep| == (if |RankedOpenings(gs)| < 10 then |RankedOpenings(gs)| else 10)
      && (forall k, x :: 0 <= k < |rep| && x in RankedOpenings(gs) && x !in rep ==> x.games <= rep[k].games)
      && (forall k :: 0 <= k < |rep| ==>
            var line := rep[k];
            && line.games >= MinGamesForPattern && line.losses == 0
            && line.wins + line.draws + Count(Select(gs, OpeningOf, line.name), Lost) == line.games)
      && (forall i, j :: 0 <= i < j < |rep| ==> rep[i].games >= rep[j].games)
  {
    assert OpeningAnalysisSpec(gs).repertoire == Take(RankedOpenings(gs), 10);
    MostPlayedKept(gs);
    RepertoireEntries(gs);
  }

  /**
   * The best and worst openings exist exactly when some opening is ranked,
   * carry the highest and the lowest win rate of all ranked openings, and
   * record no loss; every opening played is counted once.
   */
  lemma ExtremeOpeningsFacts(gs: seq<Analysis>)
    ensures var o := OpeningAnalysisSpec(gs);
      && (o.bestOpening.Some? <==> RankedOpenings(gs) != [])
      && (o.worstOpening.Some? <==> RankedOpenings(gs) != [])
      && (o.bestOpening.Some? ==> forall line :: line in RankedOpenings(gs) ==>
            o.worstOpening.value.winRate <= line.winRate <= o.bestOpening.value.winRate)
      && (o.bestOpening.Some? ==> o.bestOpening.value.losses == 0 && o.worstOpening.value.losses == 0)
      && o.totalUniqueOpenings == |Keys(gs, OpeningOf)|
  {
    var ranked := RankedOpenings(gs);
    if ranked != [] {
      RankedOpeningsExactly(gs, ranked[ArgMaxRate(ranked)]);
      RankedOpeningsExactly(gs, ranked[ArgMinRate(ranked)]);
    }
  }

  /** Each of the first ten ranked openings was played at least three times, records no loss, and its lost games make up the rest of its games. */
  lemma RepertoireEntries(gs: seq<Analysis>)
    ensures var kept := Take(RankedOpenings(gs), 10);
      forall k :: 0 <= k < |kept| ==>
        var line := kept[k];
        && line.games >= MinGamesForPattern && line.losses == 0
        && line.wins + line.draws + Count(Select(gs, OpeningOf, line.name), Lost) == line.games
  {
    var kept := Take(RankedOpenings(gs), 10);
    forall k | 0 <= k < |kept|
      ensures var line := kept[k];
        && line.games >= MinGamesForPattern && line.losses == 0
        && line.wins + line.draws + Count(Select(gs, OpeningOf, line.name), Lost) == line.games
    {
      assert kept[k] in RankedOpenings(gs);
      RankedOpeningsExactly(gs, kept[k]);
    }
  }

  /**
   * The first ten ranked openings are `min(10, n)` of them, by descending
   * games, and none left out was played more often than one kept.
   */
  lemma MostPlayedKept(gs: seq<Analysis>)
    ensures var kept := Take(RankedOpenings(gs), 10);
      && |kept| == (if |RankedOpenings(gs)| < 10 then |RankedOpenings(gs)| else 10)
      && (forall k, x :: 0 <= k < |kept| && x in RankedOpenings(gs) && x !in kept ==> x.games <= kept[k].games)
      && (forall i, j :: 0 <= i < j < |kept| ==> kept[i].games >= kept[j].games)
  {
    var ranked := RankedOpenings(gs);
    MoreGamesStrict();
    SortBySorted(OpeningLines(gs, Keys(gs, OpeningOf)), MoreGames);
    TakeOfSorted(ranked, 10, MoreGames);
    var kept := Take(ranked, 10);
    forall i, j | 0 <= i < j < |kept|
      ensures kept[i].games >= kept[j].games
    {
      assert !MoreGames(ranked[j], ranked[i]);
    }
  }

  // ---------------------------------------------------------------------------
  // analyze_game_phases
  // ---------------------------------------------------------------------------

  /** A `{'games', 'wins', 'losses'}` counter of `phase_stats`. */
  datatype PhaseCounter = PhaseCounter(games: nat, wins: nat, losses: nat)

  const PhaseZero := PhaseCounter(0, 0, 0)

  function PhaseStep(c: PhaseCounter, a: Analysis): PhaseCounter {
    PhaseCounter(c.games + 1, c.wins + (if Won(a) then 1 else 0), c.losses + (if Lost(a) then 1 else 0))
  }

  /** A phase counter fed a list holds its length, its wins and its losses. */
  lemma {:induction false} PhaseFoldCounts(s: seq<Analysis>)
    ensures Fold(s, PhaseZero, PhaseStep) == PhaseCounter(|s|, Count(s, Won), Count(s, Lost))
  {
    if s != [] {
      PhaseFoldCounts(s[..|s| - 1]);
    }
  }

  /** The counter of the games that ended in phase `p`. */
  function PhaseCounterOf(gs: seq<Analysis>, p: Phase): PhaseCounter {
    Fold(Select(gs, EndPhaseOf, p), PhaseZero, PhaseStep)
  }

  /** One more game steps the counter of the phase it ended in and leaves the others alone. */
  lemma PhaseCounterSnoc(s: seq<Analysis>, x: Analysis, p: Phase)
    ensures PhaseCounterOf(s + [x], p) == if x.endPhase == p then PhaseStep(PhaseCounterOf(s, p), x) else PhaseCounterOf(s, p)
  {
    var sel := Select(s, EndPhaseOf, p);
    SelectSnoc(s, x, EndPhaseOf, p);
    if x.endPhase == p {
      assert Select(s + [x], EndPhaseOf, p) == sel + [x];
      FoldSnoc(sel, x, PhaseZero, PhaseStep);
    } else {
      assert Select(s + [x], EndPhaseOf, p) == sel;
    }
  }


  /** An entry `{'games_ended', 'wins', 'losses', 'win_rate', 'loss_rate'}`. */
  datatype PhaseLine = PhaseLine(gamesEnded: nat, wins: nat, losses: nat, winRate: real, lossRate: real)

  function PhaseLineOf(c: PhaseCounter): PhaseLine {
    PhaseLine(c.games, c.wins, c.losses, Percent(c.wins, c.games), Percent(c.losses, c.games))
  }

  /** A game longer than the opening reached the middlegame. */
  predicate PastOpening(a: Analysis) { a.totalMoves > OpeningPhaseEnd }
  /** A game longer than the middlegame reached the endgame. */
  predicate PastMiddlegame(a: Analysis) { a.totalMoves > MiddlegamePhaseEnd }

  /** The dict `analyze_game_phases` returns. */
  datatype PhaseAnalysis = PhaseAnalysis(
    opening: PhaseLine,
    middlegame: PhaseLine,
    endgame: PhaseLine,
    middlegameReachRate: real,
    endgameReachRate: real)

  /** The value `analyze_game_phases` returns. */
  function PhaseAnalysisSpec(gs: seq<Analysis>): PhaseAnalysis {
    PhaseAnalysis(
      PhaseLineOf(PhaseCounterOf(gs, Opening)),
      PhaseLineOf(PhaseCounterOf(gs, Middlegame)),
      PhaseLineOf(PhaseCounterOf(gs, Endgame)),
      Percent(Count(gs, PastOpening), |gs|),
      Percent(Count(gs, PastMiddlegame), |gs|))
  }

  /**
   * With every end phase set from the move count, the three phases split the
   * games, the games that reached the middlegame are those that ended in it
   * or after it, and those that reached the endgame are those that ended in it.
   */
  lemma {:induction false} PhaseCounts(s: seq<Analysis>)
    requires forall k :: 0 <= k < |s| ==> PhaseConsistent(s[k])
    ensures |Select(s, EndPhaseOf, Opening)| + |Select(s, EndPhaseOf, Middlegame)| + |Select(s, EndPhaseOf, Endgame)| == |s|
    ensures |Select(s, EndPhaseOf, Middlegame)| + |Select(s, EndPhaseOf, Endgame)| == Count(s, PastOpening)
    ensures |Select(s, EndPhaseOf, Endgame)| == Count(s, PastMiddlegame)
  {
    if s != [] {
      PhaseCounts(s[..|s| - 1]);
    }
  }

  /** A larger part of the same whole is a larger percentage. */
  lemma PercentMonotone(a: nat, b: nat, whole: nat)
    requires a <= b
    ensures Percent(a, whole) <= Percent(b, whole)
  {
    if whole > 0 {
      var w := whole as real;
      assert a as real / w <= b as real / w;
    }
  }

  /**
   * The games ended in the three phases add up to all games; each phase
   * entry counts its wins and losses; reaching the middlegame is at least as
   * common as reaching the endgame, and the endgame reach rate is the share
   * of games that ended in the endgame.
   */
  lemma PhaseAnalysisFacts(gs: seq<Analysis>)
    requires forall k :: 0 <= k < |gs| ==> PhaseConsistent(gs[k])
    ensures var p := PhaseAnalysisSpec(gs);
      && p.opening.gamesEnded + p.middlegame.gamesEnded + p.endgame.gamesEnded == |gs|
      && p.endgame.wins == Count(Select(gs, EndPhaseOf, Endgame), Won)
      && p.endgame.losses == Count(Select(gs, EndPhaseOf, Endgame), Lost)
      && p.middlegameReachRate >= p.endgameReachRate
      && p.endgameReachRate == Percent(p.endgame.gamesEnded, |gs|)
      && 0.0 <= p.endgameReachRate <= p.middlegameReachRate <= 100.0
  {
    PhaseCounts(gs);
    PhaseFoldCounts(Select(gs, EndPhaseOf, Opening));
    PhaseFoldCounts(Select(gs, EndPhaseOf, Middlegame));
    PhaseFoldCounts(Select(gs, EndPhaseOf, Endgame));
    PercentMonotone(Count(gs, PastMiddlegame), Count(gs, PastOpening), |gs|);
  }
}
