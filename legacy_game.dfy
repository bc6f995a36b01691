/**
 * The per-game analysis of the older `ChessAnalyzer` in `main.py`
 * (`analyze_single_game`): the same colour, result, phase, opening and
 * termination rules as `analyzer/game_parser.py`, plus `rating_diff`, and a
 * smaller set of clock keys, without hour, weekday, trades or tactics.
 */
module LegacyGame {
  import opened Wrappers
  import opened Text
  import opened Tally
  import opened GameParser
  import PgnScan

  /**
   * The clock keys of an analysis: `time_data` is set when the PGN has any
   * clock reading; `final_time` and `time_pressure_moves` only when the
   * subject has a reading of their own.
   */
  datatype ClockFacts = ClockFacts(timeData: Option<seq<real>>, finalTime: Option<real>, timePressureMoves: Option<nat>)

  /** The dict `analyze_single_game` returns. */
  datatype Analysis = Analysis(
    url: string,
    timeControl: string,
    rated: bool,
    date: int,
    colorData: ColorData,
    ratingDiff: int,
    moves: seq<string>,
    totalMoves: nat,
    endPhase: Phase,
    opening: string,
    openingMoves: string,
    termination: Termination,
    clock: ClockFacts,
    pieceActivity: map<char, nat>,
    capturesMade: nat)

  /** The clock keys for the readings of `pgn` and the subject's colour. */
  function ClockFactsOf(pgn: string, color: Color): ClockFacts {
    var ts := AllClockTimes(pgn);
    var ps := PlayerTimes(ts, color);
    if ts == [] then ClockFacts(None, None, None)
    else if ps == [] then ClockFacts(Some(ts), None, None)
    else ClockFacts(Some(ts), Some(ps[|ps| - 1]), Some(Count(ps, UnderPressure)))
  }

  /** `analyze_single_game`: the analysis, or the failure a missing field raises. */
  function AnalysisSpec(g: RawGame, username: string, localTime: int -> int): Result<Analysis, ParseFailure> {
    if g.url.None? then Err(MissingField)
    else
      match DeterminePlayerColor(g, username)
      case Err(e) => Err(e)
      case Ok(cd) =>
        if g.pgn.None? then Err(MissingField)
        else Ok(AnalysisOf(g, g.pgn.value, cd, localTime))
  }

  /** The analysis of a record with a URL, its PGN and the subject's colour data. */
  function AnalysisOf(g: RawGame, pgn: string, cd: ColorData, localTime: int -> int): Analysis
    requires g.url.Some?
  {
    var moves := PgnScan.ExtractMoves(pgn);
    ExtractedMovesNonEmpty(pgn);
    Analysis(
      g.url.value, g.timeClass.GetOr("unknown"), g.rated.GetOr(false), localTime(g.endTime.GetOr(0)), cd,
      cd.opponentRating - cd.playerRating,
      moves, |moves| / 2, PhaseOf(|moves| / 2),
      ExtractOpening(g.eco), Join(Take(moves, 10), " "),
      AnalyzeTermination(pgn, cd.result),
      ClockFactsOf(pgn, cd.color),
      PieceTally(moves), Count(moves, IsCapture))
  }

  /**
   * The clock keys against the parser's time dict: `time_data` is present
   * exactly when the PGN has a reading, and `final_time` and
   * `time_pressure_moves` exactly when the parser's dict is non-empty,
   * holding the same values.
   */
  lemma ClockFactsAgree(pgn: string, color: Color, criticalThreshold: real)
    ensures var c := ClockFactsOf(pgn, color);
      var t := TimeStatsOf(pgn, color, criticalThreshold);
      && (c.timeData.Some? <==> PgnScan.ClockMatches(pgn, 0) != [])
      && (c.timeData.Some? ==> c.timeData.value == AllClockTimes(pgn))
      && (c.finalTime.Some? <==> t.Some?)
      && (c.timePressureMoves.Some? <==> t.Some?)
      && (t.Some? ==> c.finalTime.value == t.value.finalTime && c.timePressureMoves.value == t.value.timePressureMoves)
      && (c.finalTime.Some? ==> c.timeData.Some?)
  {
  }

  /** `time_pressure_moves` counts at most one move per reading of the subject. */
  lemma PressureMovesBounded(pgn: string, color: Color)
    ensures var c := ClockFactsOf(pgn, color);
      c.timePressureMoves.Some? ==> c.timePressureMoves.value <= |SubjectTimes(pgn, color)|
  {
  }

  /**
   * The older analysis and the parser's fact sheet fail on the same records
   * and agree on every key they share; `rating_diff` is the opponent's rating
   * minus the subject's.
   */
  lemma AnalysisMatchesParser(g: RawGame, username: string, localTime: int -> int,
                              categories: seq<TimeCategory>, criticalThreshold: real)
    ensures AnalysisSpec(g, username, localTime).Ok? <==> ParseGameSpec(g, username, localTime, categories, criticalThreshold).Ok?
    ensures AnalysisSpec(g, username, localTime).Ok? ==>
      var a := AnalysisSpec(g, username, localTime).value;
      var p := ParseGameSpec(g, username, localTime, categories, criticalThreshold).value;
      && a.url == p.url && a.timeControl == p.timeControl && a.rated == p.rated && a.date == p.date
      && a.colorData == p.colorData && a.moves == p.moves && a.totalMoves == p.totalMoves
      && a.endPhase == p.endPhase && a.opening == p.opening && a.openingMoves == p.openingMoves
      && a.termination == p.termination && a.pieceActivity == p.pieceActivity && a.capturesMade == p.capturesMade
      && a.ratingDiff == p.colorData.opponentRating - p.colorData.playerRating
      && (a.clock.finalTime.Some? <==> p.time.Some?)
  {
    if AnalysisSpec(g, username, localTime).Ok? {
      ClockFactsAgree(g.pgn.value, AnalysisSpec(g, username, localTime).value.colorData.color, criticalThreshold);
    }
  }

  /** `analyze_single_game` raises exactly when the URL, a colour field or the PGN is missing. */
  lemma AnalysisFailsExactly(g: RawGame, username: string, localTime: int -> int)
    ensures AnalysisSpec(g, username, localTime).Err? <==> !HasRequiredFields(g, username)
  {
  }

  /** The analysis of `g` succeeds. */
  predicate Succeeds(g: RawGame, username: string, localTime: int -> int) {
    AnalysisSpec(g, username, localTime).Ok?
  }

  /** The analyses the batch loop keeps for `games`: the successful ones, in input order. */
  function Analyzed(games: seq<RawGame>, username: string, localTime: int -> int): seq<Analysis> {
    if games == [] then []
    else
      var r := AnalysisSpec(games[|games| - 1], username, localTime);
      Analyzed(games[..|games| - 1], username, localTime) + (if r.Ok? then [r.value] else [])
  }

  /** One more record adds its analysis, unless its analysis raises. */
  lemma AnalyzedSnoc(games: seq<RawGame>, g: RawGame, username: string, localTime: int -> int)
    ensures var r := AnalysisSpec(g, username, localTime);
      Analyzed(games + [g], username, localTime) == Analyzed(games, username, localTime) + (if r.Ok? then [r.value] else [])
  {
    assert (games + [g])[..|games|] == games;
  }

  /**
   * The loop keeps exactly the games whose analysis does not raise, in input
   * order: its list is the analyses of the successful games.
   */
  lemma {:induction false} AnalyzedIsFilter(games: seq<RawGame>, username: string, localTime: int -> int)
    ensures var ok := Filter(games, (g: RawGame) => Succeeds(g, username, localTime));
      && |Analyzed(games, username, localTime)| == |ok|
      && forall k :: 0 <= k < |ok| ==> Analyzed(games, username, localTime)[k] == AnalysisSpec(ok[k], username, localTime).value
  {
    if games != [] {
      AnalyzedIsFilter(games[..|games| - 1], username, localTime);
    }
  }

  /** A record whose fields are all present is kept. */
  lemma {:induction false} CompleteRecordsKept(games: seq<RawGame>, username: string, localTime: int -> int)
    requires forall k :: 0 <= k < |games| ==> HasRequiredFields(games[k], username)
    ensures |Analyzed(games, username, localTime)| == |games|
  {
    if games != [] {
      CompleteRecordsKept(games[..|games| - 1], username, localTime);
    }
  }
}
