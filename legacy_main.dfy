/**
 * The older analyzer class of `main.py`: it holds the fetched game records
 * and the analyses made from them, and computes each report over the
 * analyses. Every method is proved against the specification function of
 * its report in `LegacyGame`, `LegacyStats`, `LegacyLosses` or
 * `LegacyMomentum`.
 */
module LegacyAnalyzer {
  import opened Wrappers
  import opened Text
  import opened Tally
  import opened Grouping
  import opened GameParser
  import PgnScan
  import Streaks
  import opened LegacyGame
  import opened LegacyStats
  import opened LegacyLosses
  import opened LegacyMomentum

  /**
   * The counting loop of `analyze_openings` and the list it builds: the
   * openings played, and the entries of those played at least three times.
   */
  method OpeningListOf(gs: seq<Analysis>) returns (names: seq<string>, openingList: seq<OpeningLine>)
    ensures names == Keys(gs, OpeningOf)
    ensures openingList == OpeningLines(gs, names)
  {
    var openingStats;
    names, openingStats := GroupFold(gs, OpeningOf, OpeningZero, OpeningStep);
    openingList := [];
    for i := 0 to |names|
      invariant openingList == OpeningLines(gs, names[..i])
    {
      var name := names[i];
      PrefixSnoc(names, i);
      assert name in openingStats;
      var stats := openingStats[name];
      assert stats == OpeningCounterOf(gs, name);
      OpeningLinesSnoc(gs, names[..i], name);
      if stats.total >= MinGamesForPattern {
        openingList := openingList + [LineOf(name, stats)];
      }
    }
    assert names[..|names|] == names;
  }

  /** The category of one endgame, decided letter by letter on its late moves. */
  method CategorizeEndgame(game: Analysis) returns (kind: EndgameKind)
    ensures kind == EndgameKindOf(game)
  {
    var lateMoves := Join(if |game.moves| >= 10 then game.moves[|game.moves| - 10..] else game.moves, " ");
    if 'Q' in lateMoves || 'q' in lateMoves {
      kind := QueenEnding;
    } else if 'R' in lateMoves || 'r' in lateMoves {
      kind := RookEnding;
    } else if 'N' in lateMoves || 'B' in lateMoves || 'n' in lateMoves || 'b' in lateMoves {
      kind := MinorEnding;
    } else {
      kind := PawnEnding;
    }
  }

  /** The loss records of `s`: its quick losses, its losses on time, its resignation table and its blunder-hint count. */
  predicate LossesCollected(s: seq<Analysis>, quick: seq<QuickLoss>, time: seq<TimeLoss>, resigned: map<Phase, nat>, blunders: nat) {
    && quick == QuickLosses(s) && time == TimeLosses(s)
    && resigned == ResignationTable(s) && blunders == Count(s, IsBlunderLoss)
  }

  /** One pass of the loss loop of `analyze_mistakes`: a lost game is filed under each record it qualifies for. */
  method FileLoss(s: seq<Analysis>, game: Analysis, quick: seq<QuickLoss>, time: seq<TimeLoss>, resigned: map<Phase, nat>, blunders: nat)
    returns (quick': seq<QuickLoss>, time': seq<TimeLoss>, resigned': map<Phase, nat>, blunders': nat)
    requires LossesCollected(s, quick, time, resigned, blunders)
    ensures LossesCollected(s + [game], quick', time', resigned', blunders')
  {
    MistakeSnoc(s, game);
    ResignationTableSnoc(s, game);
    quick', time', resigned', blunders' := quick, time, resigned, blunders;
    if Lost(game) {
      if game.totalMoves < QuickLossMoves {
        quick' := quick' + [QuickLoss(game.totalMoves, game.opening, game.endPhase)];
      }
      if game.termination == OnTime {
        time' := time' + [TimeLoss(game.totalMoves, game.timeControl, game.clock.finalTime.GetOr(0.0))];
      }
      if game.termination == ByResignation {
        var p := game.endPhase;
        resigned' := resigned'[p := (if p in resigned' then resigned'[p] else 0) + 1];
      }
      if game.totalMoves < BlunderMoves && game.capturesMade > BlunderCaptures {
        blunders' := blunders' + 1;
      }
    }
  }

  /** The loss loop of `analyze_mistakes` over all analysed games. */
  method CollectLosses(gs: seq<Analysis>) returns (quick: seq<QuickLoss>, time: seq<TimeLoss>, resigned: map<Phase, nat>, blunders: nat)
    ensures LossesCollected(gs, quick, time, resigned, blunders)
  {
    quick, time, resigned, blunders := [], [], map[], 0;
    for i := 0 to |gs|
      invariant LossesCollected(gs[..i], quick, time, resigned, blunders)
    {
      PrefixSnoc(gs, i);
      quick, time, resigned, blunders := FileLoss(gs[..i], gs[i], quick, time, resigned, blunders);
    }
    assert gs[..|gs|] == gs;
  }

  /** The time-control loop of `calculate_basic_stats`: one win counter per time control played. */
  method CountTimeControls(gs: seq<Analysis>) returns (table: map<string, WinCounter>)
    ensures table == TimeControlTable(gs)
  {
    var keys;
    keys, table := GroupFold(gs, TimeControlOf, CounterZero, CounterStep);
    assert table.Keys == TimeControlTable(gs).Keys;
  }

  /** The four lists hold the endgames of `s` of each category, in order. */
  predicate Categorized(s: seq<Analysis>, pawn: seq<Analysis>, rook: seq<Analysis>, minor: seq<Analysis>, queen: seq<Analysis>) {
    && pawn == OfKind(s, PawnEnding) && rook == OfKind(s, RookEnding)
    && minor == OfKind(s, MinorEnding) && queen == OfKind(s, QueenEnding)
  }

  /** One pass of the categorizing loop: the endgame is appended to the list of its category. */
  method FileEndgame(s: seq<Analysis>, game: Analysis, pawn: seq<Analysis>, rook: seq<Analysis>, minor: seq<Analysis>, queen: seq<Analysis>)
    returns (pawn': seq<Analysis>, rook': seq<Analysis>, minor': seq<Analysis>, queen': seq<Analysis>)
    requires Categorized(s, pawn, rook, minor, queen)
    ensures Categorized(s + [game], pawn', rook', minor', queen')
  {
    SelectSnoc(s, game, EndgameKindOf, PawnEnding);
    SelectSnoc(s, game, EndgameKindOf, RookEnding);
    SelectSnoc(s, game, EndgameKindOf, MinorEnding);
    SelectSnoc(s, game, EndgameKindOf, QueenEnding);
    pawn', rook', minor', queen' := pawn, rook, minor, queen;
    var kind := CategorizeEndgame(game);
    match kind {
      case QueenEnding => queen' := queen' + [game];
      case RookEnding => rook' := rook' + [game];
      case MinorEnding => minor' := minor' + [game];
      case PawnEnding => pawn' := pawn' + [game];
    }
  }

  /** The categorizing loop of `analyze_endgames`: each endgame appended to the list of its category. */
  method CategorizeEndgames(endgames: seq<Analysis>) returns (pawn: seq<Analysis>, rook: seq<Analysis>, minor: seq<Analysis>, queen: seq<Analysis>)
    ensures pawn == OfKind(endgames, PawnEnding) && rook == OfKind(endgames, RookEnding)
    ensures minor == OfKind(endgames, MinorEnding) && queen == OfKind(endgames, QueenEnding)
  {
    pawn, rook, minor, queen := [], [], [], [];
    for i := 0 to |endgames|
      invariant Categorized(endgames[..i], pawn, rook, minor, queen)
    {
      PrefixSnoc(endgames, i);
      pawn, rook, minor, queen := FileEndgame(endgames[..i], endgames[i], pawn, rook, minor, queen);
    }
    assert endgames[..|endgames|] == endgames;
  }

  /** The three phase counters and the two reach counts hold those of the games `s`. */
  predicate PhasesCounted(s: seq<Analysis>, opening: PhaseCounter, middlegame: PhaseCounter, endgame: PhaseCounter,
                          reachedMiddlegame: nat, reachedEndgame: nat) {
    && opening == PhaseCounterOf(s, Opening)
    && middlegame == PhaseCounterOf(s, Middlegame)
    && endgame == PhaseCounterOf(s, Endgame)
    && reachedMiddlegame == Count(s, PastOpening)
    && reachedEndgame == Count(s, PastMiddlegame)
  }

  /** One pass of the phase loop: the counter of the game's end phase, and the reach counts it passed. */
  method CountPhase(s: seq<Analysis>, game: Analysis, opening: PhaseCounter, middlegame: PhaseCounter, endgame: PhaseCounter,
                    reachedMiddlegame: nat, reachedEndgame: nat)
    returns (opening': PhaseCounter, middlegame': PhaseCounter, endgame': PhaseCounter, reachedMiddlegame': nat, reachedEndgame': nat)
    requires PhasesCounted(s, opening, middlegame, endgame, reachedMiddlegame, reachedEndgame)
    ensures PhasesCounted(s + [game], opening', middlegame', endgame', reachedMiddlegame', reachedEndgame')
  {
    opening', middlegame', endgame' := StepEndPhase(s, game, opening, middlegame, endgame);
    reachedMiddlegame' := CountWhen(s, game, PastOpening, reachedMiddlegame);
    reachedEndgame' := CountWhen(s, game, PastMiddlegame, reachedEndgame);
  }

  /** `phase_stats[game.end_phase]` counts one more game. */
  method StepEndPhase(s: seq<Analysis>, game: Analysis, opening: PhaseCounter, middlegame: PhaseCounter, endgame: PhaseCounter)
    returns (opening': PhaseCounter, middlegame': PhaseCounter, endgame': PhaseCounter)
    requires opening == PhaseCounterOf(s, Opening) && middlegame == PhaseCounterOf(s, Middlegame) && endgame == PhaseCounterOf(s, Endgame)
    ensures opening' == PhaseCounterOf(s + [game], Opening) && middlegame' == PhaseCounterOf(s + [game], Middlegame)
    ensures endgame' == PhaseCounterOf(s + [game], Endgame)
  {
    PhaseCounterSnoc(s, game, Opening);
    PhaseCounterSnoc(s, game, Middlegame);
    PhaseCounterSnoc(s, game, Endgame);
    opening', middlegame', endgame' := opening, middlegame, endgame;
    match game.endPhase {
      case Opening => opening' := PhaseStep(opening', game);
      case Middlegame => middlegame' := PhaseStep(middlegame', game);
      case Endgame => endgame' := PhaseStep(endgame', game);
    }
  }

  class ChessAnalyzer {
    /** The subject of the analysis. */
    const username: string
    /** The local wall-clock reading of a Unix timestamp (`datetime.fromtimestamp`). */
    const localTime: int -> int
    /** The game records as the archives return them. */
    var games: seq<RawGame>
    /** The analyses of the records that could be analysed, in record order. */
    var analyzedGames: seq<Analysis>

    constructor (username: string, localTime: int -> int)
      ensures this.username == username && this.localTime == localTime
      ensures games == [] && analyzedGames == []
    {
      this.username := username;
      this.localTime := localTime;
      games := [];
      analyzedGames := [];
    }

    /**
     * `parse_pgn_moves`: the same regular expressions as the parser's move
     * extraction, so the same moves, none of them a tag or holding a space.
     */
    method ParsePgnMoves(pgn: string) returns (flatMoves: seq<string>)
      ensures flatMoves == PgnScan.ExtractMoves(pgn)
      ensures forall k :: 0 <= k < |flatMoves| ==> PgnScan.KeepToken(flatMoves[k]) && PgnScan.SpaceFree(flatMoves[k])
    {
      flatMoves := PgnScan.ParsePgnMoves(pgn);
    }

    /** The clock part of `analyze_single_game`: `time_data` from every reading, the rest from the subject's. */
    static method ClockFactsFrom(pgn: string, color: Color) returns (clock: ClockFacts)
      ensures clock == ClockFactsOf(pgn, color)
    {
      var clocks := PgnScan.ClockMatches(pgn, 0);
      assert |AllClockTimes(pgn)| == |clocks|;
      clock := ClockFacts(None, None, None);
      if clocks != [] {
        var timeData := ConvertClocks(clocks);
        assert timeData == AllClockTimes(pgn);
        var playerTimes := PlayerTimes(timeData, color);
        clock := ClockFacts(Some(timeData), None, None);
        if playerTimes != [] {
          clock := ClockFacts(Some(timeData), Some(playerTimes[|playerTimes| - 1]), Some(Count(playerTimes, UnderPressure)));
        }
      }
    }

    /** `analyze_single_game`: the analysis of one record, or the failure a missing field raises. */
    method AnalyzeSingleGame(g: RawGame) returns (r: Result<Analysis, ParseFailure>)
      ensures r == AnalysisSpec(g, username, localTime)
      ensures r.Err? <==> !HasRequiredFields(g, username)
    {
      AnalysisFailsExactly(g, username, localTime);
      if g.url.None? {
        return Err(MissingField);
      }
      var colorData := DeterminePlayerColor(g, username);
      if colorData.Err? {
        return Err(colorData.error);
      }
      var cd := colorData.value;
      if g.pgn.None? {
        return Err(MissingField);
      }
      var a := BuildAnalysis(g, g.pgn.value, cd);
      r := Ok(a);
    }

    /** The success path of `analyze_single_game`: moves, clock facts, piece activity and the rest of the record. */
    method BuildAnalysis(g: RawGame, pgn: string, cd: ColorData) returns (a: Analysis)
      requires g.url.Some?
      ensures a == AnalysisOf(g, pgn, cd, localTime)
    {
      var moves := ParsePgnMoves(pgn);
      ExtractedMovesNonEmpty(pgn);
      var totalMoves := |moves| / 2;
      var clock := ClockFactsFrom(pgn, cd.color);
      var pieceActivity := AnalyzePieceActivity(moves);
      a := Analysis(
        g.url.value, g.timeClass.GetOr("unknown"), g.rated.GetOr(false), localTime(g.endTime.GetOr(0)), cd,
        cd.opponentRating - cd.playerRating,
        moves, totalMoves, PhaseOf(totalMoves),
        ExtractOpening(g.eco), Join(Take(moves, 10), " "),
        AnalyzeTermination(pgn, cd.result),
        clock, pieceActivity, Count(moves, IsCapture));
    }

    /**
     * `analyze_all_games`: analyses every record, skipping those whose
     * analysis raises, and keeps the list of the others.
     */
    method AnalyzeAllGames() returns (result: seq<Analysis>)
      modifies this
      ensures games == old(games)
      ensures analyzedGames == Analyzed(games, username, localTime)
      ensures result == analyzedGames
    {
      var gs := games;
      var kept := [];
      for i := 0 to |gs|
        invariant games == gs
        invariant kept == Analyzed(gs[..i], username, localTime)
      {
        PrefixSnoc(gs, i);
        AnalyzedSnoc(gs[..i], gs[i], username, localTime);
        var analysis := AnalyzeSingleGame(gs[i]);
        if analysis.Ok? {
          kept := kept + [analysis.value];
        }
      }
      assert gs[..|gs|] == gs;
      analyzedGames := kept;
      result := kept;
    }

    /** `calculate_basic_stats`: the totals, the colour split, the time control table and the rating averages. */
    method CalculateBasicStats() returns (r: Result<BasicStats, Failure>)
      ensures r == BasicStatsSpec(analyzedGames)
    {
      var gs := analyzedGames;
      var total := |gs|;
      var wins := Count(gs, Won);
      var losses := Count(gs, Lost);
      var white := Filter(gs, AsWhite);
      var black := Filter(gs, AsBlack);
      var timeControlStats := CountTimeControls(gs);
      if total == 0 {
        return Err(DivisionByZero);
      }
      r := Ok(BasicStats(
        total, wins, losses, total - wins - losses, Percent(wins, total),
        |white|, Percent(Count(white, Won), |white|), |black|, Percent(Count(black, Won), |black|),
        Sum(gs, PlayerRating) as real / total as real, Sum(gs, OpponentRating) as real / total as real,
        timeControlStats));
    }

    /**
     * `analyze_openings`: the per-opening counters, the openings played at
     * least three times most played first, the ten most played, the best and
     * the worst by win rate, and the number of openings played. The counter
     * is the one written, so no entry ever records a loss.
     */
    method AnalyzeOpenings() returns (r: OpeningAnalysis)
      ensures r == OpeningAnalysisSpec(analyzedGames)
      ensures forall k :: 0 <= k < |r.repertoire| ==> r.repertoire[k].losses == 0
    {
      var gs := analyzedGames;
      OpeningAnalysisFacts(gs);
      var names, openingList := OpeningListOf(gs);
      openingList := SortBy(openingList, MoreGames);
      var best, worst := None, None;
      if openingList != [] {
        best := Some(openingList[ArgMaxRate(openingList)]);
        worst := Some(openingList[ArgMinRate(openingList)]);
      }
      r := OpeningAnalysis(Take(openingList, 10), best, worst, |names|);
    }

    /**
     * `analyze_game_phases`: one counter per end phase, the number of games
     * that got past the opening and past the middlegame, and the rates.
     */
    method AnalyzeGamePhases() returns (r: PhaseAnalysis)
      ensures r == PhaseAnalysisSpec(analyzedGames)
    {
      var gs := analyzedGames;
      var opening, middlegame, endgame := PhaseZero, PhaseZero, PhaseZero;
      var reachedMiddlegame, reachedEndgame := 0, 0;
      for i := 0 to |gs|
        invariant PhasesCounted(gs[..i], opening, middlegame, endgame, reachedMiddlegame, reachedEndgame)
      {
        PrefixSnoc(gs, i);
        opening, middlegame, endgame, reachedMiddlegame, reachedEndgame :=
          CountPhase(gs[..i], gs[i], opening, middlegame, endgame, reachedMiddlegame, reachedEndgame);
      }
      assert gs[..|gs|] == gs;
      var total := |gs|;
      r := PhaseAnalysis(
        PhaseLineOf(opening), PhaseLineOf(middlegame), PhaseLineOf(endgame),
        Percent(reachedMiddlegame, total), Percent(reachedEndgame, total));
    }

    /**
     * `analyze_mistakes`: over the losses, the quick ones, those on time,
     * the resignations per end phase and the blunder hints, then the rates
     * and the time control with the most losses on time.
     */
    method AnalyzeMistakes() returns (r: MistakeAnalysis)
      ensures r == MistakeSpec(analyzedGames)
    {
      var gs := analyzedGames;
      var quickLosses, timeLosses, resignationPatterns, blunderIndicators := CollectLosses(gs);
      var totalLosses := Count(gs, Lost);
      var worst := None;
      if timeLosses != [] {
        worst := MostCommon(Histogram(timeLosses, TimeLossControl));
      } else {
        assert |Keys(timeLosses, TimeLossControl)| == 0;
      }
      r := MistakeAnalysis(
        Percent(|quickLosses|, totalLosses), Percent(|timeLosses|, totalLosses), Take(quickLosses, 5),
        resignationPatterns, blunderIndicators, worst);
    }

    /**
     * `analyze_endgames`: the games that ended in the endgame, sorted into
     * queen, rook, minor-piece and pawn endings by the letters of their last
     * ten moves, with their win rates and the conversion rate against weaker
     * opponents.
     */
    method AnalyzeEndgames() returns (r: EndgameAnalysis)
      ensures r == EndgameSpec(analyzedGames)
    {
      var endgames := Filter(analyzedGames, IsEndgame);
      if endgames == [] {
        return NoEndgames;
      }
      var pawn, rook, minor, queen := CategorizeEndgames(endgames);
      var aheadEndgames := Filter(endgames, AheadOnRating);
      var conversion := None;
      if aheadEndgames != [] {
        conversion := Some(Percent(Count(aheadEndgames, Won), |aheadEndgames|));
      }
      r := EndgameReport(
        |endgames|, Percent(Count(endgames, Won), |endgames|),
        KindLineOf(pawn), KindLineOf(rook), KindLineOf(minor), KindLineOf(queen), conversion);
    }

    /**
     * `analyze_momentum`: the streaks and the recovery rate over the games
     * in date order, the three best hours, the session means and the number
     * of days played.
     */
    method AnalyzeMomentum() returns (r: MomentumAnalysis)
      ensures r == MomentumSpec(analyzedGames)
    {
      var sortedGames := SortBy(analyzedGames, EarlierDate);
      var results := MapSeq(sortedGames, ResultOf);
      var maxWinStreak, maxLossStreak := Streaks.MaxStreaks(results);
      var gamesAfterLoss, winsAfterLoss := Streaks.Recovery(results);
      var recoveryRate := Percent(winsAfterLoss, gamesAfterLoss);
      var bestHours := BestHoursOf(analyzedGames);
      var days, optimalLength := SessionsOf(sortedGames);
      r := MomentumAnalysis(maxWinStreak, maxLossStreak, recoveryRate, Take(bestHours, 3), optimalLength, |days|);
    }
  }
}
