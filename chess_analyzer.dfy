/**
 * The analysis pipeline of `analyzer/chess_analyzer.py`: parse every fetched
 * record, skipping those that fail, compute the metrics, attach the player's
 * rating and rating level, and derive the five insight groups. The fetch is
 * left out; its results (the game records and the rating from the stats
 * endpoint) are parameters, as are the configured clock threshold, time of
 * day categories and rating levels.
 */
module ChessAnalyzer {
  import opened Wrappers
  import opened Tally
  import opened GameParser
  import opened Metrics
  import opened AllMetrics
  import opened ExchangeMetrics
  import opened RuleBasedInsights

  /** The two ways `analyze` raises after the fetch. */
  datatype AnalyzeFailure =
    | NoRatingLevel      // `_get_rating_level` leaves `rating_level` unbound
    | MissingBasicStats  // the empty metrics dict has no `basic_stats`

  /** `metrics['player_info']`. */
  datatype PlayerInfo = PlayerInfo(username: string, currentRating: int, ratingLevel: string)

  /** The insights dict. */
  datatype Insights = Insights(
    priorities: seq<Priority>,
    strengths: seq<Strength>,
    recommendations: seq<string>,
    patterns: Patterns,
    projections: Projections)

  /** The pair `analyze` returns when it gets that far: the metrics with the player's info, and the insights. */
  datatype Report = Report(metrics: CalculatedMetrics, playerInfo: PlayerInfo, insights: Insights)

  // ---------------------------------------------------------------------------
  // _get_rating_level
  // ---------------------------------------------------------------------------

  /** A rating level entry `(threshold, level)` sorts before another with a higher threshold. */
  predicate LowerThreshold(a: (int, string), b: (int, string)) { a.0 < b.0 }

  /** The level of the last entry whose threshold the rating reaches, if any. */
  function LastReached(levels: seq<(int, string)>, rating: int): Option<string> {
    if levels == [] then None
    else if rating >= levels[|levels| - 1].0 then Some(levels[|levels| - 1].1)
    else LastReached(levels[..|levels| - 1], rating)
  }

  /** The level the loop over the sorted entries leaves behind; `None` when it never assigns one. */
  function RatingLevelSpec(levels: seq<(int, string)>, rating: int): Option<string> {
    LastReached(SortBy(levels, LowerThreshold), rating)
  }

  /**
   * `_get_rating_level`: walk the entries by increasing threshold, keeping
   * the level of each one the rating reaches. `None` stands for the
   * unbound local the source then returns, which raises.
   */
  method GetRatingLevel(levels: seq<(int, string)>, rating: int) returns (level: Option<string>)
    ensures level == RatingLevelSpec(levels, rating)
    ensures level.None? <==> forall p :: p in levels ==> rating < p.0
  {
    var sorted := SortBy(levels, LowerThreshold);
    level := None;
    for i := 0 to |sorted|
      invariant level == LastReached(sorted[..i], rating)
    {
      assert sorted[..i + 1][..i] == sorted[..i];
      if rating >= sorted[i].0 {
        level := Some(sorted[i].1);
      }
    }
    assert sorted[..|sorted|] == sorted;
    RatingLevelIsHighest(levels, rating);
  }

  /** Entry `k` of `s` is the last one the rating reaches. */
  predicate LastReachedAt(s: seq<(int, string)>, rating: int, k: int) {
    && 0 <= k < |s|
    && rating >= s[k].0
    && forall j :: k < j < |s| ==> rating < s[j].0
  }

  /** The loop's level is the one of the last entry the rating reaches, if there is one. */
  lemma {:induction false} LastReachedIsLast(s: seq<(int, string)>, rating: int)
    ensures LastReached(s, rating).None? <==> forall k :: 0 <= k < |s| ==> rating < s[k].0
    ensures LastReached(s, rating).Some? ==>
      exists k :: LastReachedAt(s, rating, k) && s[k].1 == LastReached(s, rating).value
  {
    if s != [] {
      var n := |s| - 1;
      var prefix := s[..n];
      LastReachedIsLast(prefix, rating);
      if rating >= s[n].0 {
        assert LastReachedAt(s, rating, n);
      } else if LastReached(prefix, rating).Some? {
        var k :| LastReachedAt(prefix, rating, k) && prefix[k].1 == LastReached(prefix, rating).value;
        assert LastReachedAt(s, rating, k);
      }
    }
  }

  /** `level` belongs to the highest threshold `rating` reaches. */
  ghost predicate LevelOfHighest(levels: seq<(int, string)>, rating: int, level: string) {
    exists p :: p in levels && rating >= p.0 && p.1 == level
      && forall q :: q in levels && rating >= q.0 ==> q.0 <= p.0
  }

  /** The thresholds of `s` never decrease. */
  predicate ThresholdsAscending(s: seq<(int, string)>) {
    forall i, j :: 0 <= i < j < |s| ==> s[i].0 <= s[j].0
  }

  /** Sorting the entries keeps the same entries and puts their thresholds in increasing order. */
  lemma SortedByThreshold(levels: seq<(int, string)>)
    ensures var sorted := SortBy(levels, LowerThreshold);
      && (forall p :: p in sorted <==> p in levels)
      && ThresholdsAscending(sorted)
  {
    var sorted := SortBy(levels, LowerThreshold);
    assert StrictOrder(LowerThreshold);
    SortBySorted(levels, LowerThreshold);
    forall p
      ensures p in sorted <==> p in levels
    {
      assert p in levels <==> p in multiset(levels);
      assert p in sorted <==> p in multiset(sorted);
    }
    forall i, j | 0 <= i < j < |sorted|
      ensures sorted[i].0 <= sorted[j].0
    {
      assert !LowerThreshold(sorted[j], sorted[i]);
    }
  }

  /**
   * The level is the one of the highest threshold the rating reaches, and
   * there is none exactly when the rating is below every threshold.
   */
  lemma RatingLevelIsHighest(levels: seq<(int, string)>, rating: int)
    ensures RatingLevelSpec(levels, rating).None? <==> forall p :: p in levels ==> rating < p.0
    ensures RatingLevelSpec(levels, rating).Some? ==> LevelOfHighest(levels, rating, RatingLevelSpec(levels, rating).value)
  {
    NoLevelExactly(levels, rating);
    if RatingLevelSpec(levels, rating).Some? {
      LevelIsHighest(levels, rating);
    }
  }

  /** There is no level exactly when the rating is below every threshold. */
  lemma NoLevelExactly(levels: seq<(int, string)>, rating: int)
    ensures RatingLevelSpec(levels, rating).None? <==> forall p :: p in levels ==> rating < p.0
  {
    var sorted := SortBy(levels, LowerThreshold);
    SortedByThreshold(levels);
    LastReachedIsLast(sorted, rating);
    if LastReached(sorted, rating).None? {
      forall p | p in levels
        ensures rating < p.0
      {
        var j :| 0 <= j < |sorted| && sorted[j] == p;
      }
    }
  }

  /** A level found is the one of the highest threshold the rating reaches. */
  lemma LevelIsHighest(levels: seq<(int, string)>, rating: int)
    requires RatingLevelSpec(levels, rating).Some?
    ensures LevelOfHighest(levels, rating, RatingLevelSpec(levels, rating).value)
  {
    var sorted := SortBy(levels, LowerThreshold);
    SortedByThreshold(levels);
    assert RatingLevelSpec(levels, rating) == LastReached(sorted, rating);
    HighestOfSorted(levels, sorted, rating);
  }

  /** Over the same entries in threshold order, the last one reached is the highest one reached. */
  lemma HighestOfSorted(levels: seq<(int, string)>, sorted: seq<(int, string)>, rating: int)
    requires forall p :: p in sorted <==> p in levels
    requires ThresholdsAscending(sorted)
    requires LastReached(sorted, rating).Some?
    ensures LevelOfHighest(levels, rating, LastReached(sorted, rating).value)
  {
    LastReachedIsLast(sorted, rating);
    var k :| LastReachedAt(sorted, rating, k) && sorted[k].1 == LastReached(sorted, rating).value;
    var p := sorted[k];
    forall q | q in levels && rating >= q.0
      ensures q.0 <= p.0
    {
      var j :| 0 <= j < |sorted| && sorted[j] == q;
    }
    assert p in levels;
  }

  // ---------------------------------------------------------------------------
  // The parse loop of analyze
  // ---------------------------------------------------------------------------

  /** The fact sheets the loop keeps: those of the records that parse, in input order. */
  function ParsedGames(games: seq<RawGame>, username: string, localTime: int -> int,
                       categories: seq<TimeCategory>, criticalThreshold: real): seq<ParsedGame>
  {
    if games == [] then []
    else
      var r := ParseGameSpec(games[|games| - 1], username, localTime, categories, criticalThreshold);
      ParsedGames(games[..|games| - 1], username, localTime, categories, criticalThreshold)
        + (if r.Ok? then [r.value] else [])
  }

  /** Step 2 of `analyze`: parse each record, skipping the ones that raise. */
  method ParseAll(games: seq<RawGame>, username: string, localTime: int -> int,
                  categories: seq<TimeCategory>, criticalThreshold: real) returns (parsedGames: seq<ParsedGame>)
    ensures parsedGames == ParsedGames(games, username, localTime, categories, criticalThreshold)
  {
    parsedGames := [];
    for i := 0 to |games|
      invariant parsedGames == ParsedGames(games[..i], username, localTime, categories, criticalThreshold)
    {
      assert games[..i + 1][..i] == games[..i];
      var parsed := ParseGame(games[i], username, localTime, categories, criticalThreshold);
      if parsed.Ok? {
        parsedGames := parsedGames + [parsed.value];
      }
    }
    assert games[..|games|] == games;
  }

  /** The records `parse_game` accepts: URL, both colour fields and PGN present. */
  function Complete(username: string): RawGame -> bool {
    (g: RawGame) => HasRequiredFields(g, username)
  }

  /** `parsed` holds, in order, the fact sheet of each record of `ok`. */
  predicate SheetsOf(parsed: seq<ParsedGame>, ok: seq<RawGame>, username: string, localTime: int -> int,
                     categories: seq<TimeCategory>, criticalThreshold: real)
  {
    && |parsed| == |ok|
    && forall k :: 0 <= k < |ok| ==>
         var r := ParseGameSpec(ok[k], username, localTime, categories, criticalThreshold);
         r.Ok? && parsed[k] == r.value
  }

  /**
   * The loop keeps exactly the records whose fields are all present, in
   * input order, each as its fact sheet.
   */
  lemma {:induction false} ParsedIsFilter(games: seq<RawGame>, username: string, localTime: int -> int,
                                          categories: seq<TimeCategory>, criticalThreshold: real)
    ensures SheetsOf(ParsedGames(games, username, localTime, categories, criticalThreshold), Filter(games, Complete(username)),
                     username, localTime, categories, criticalThreshold)
  {
    if games != [] {
      var init := games[..|games| - 1];
      var last := games[|games| - 1];
      ParsedIsFilter(init, username, localTime, categories, criticalThreshold);
      assert games == init + [last];
      FilterSnoc(init, last, Complete(username));
      ParseFailsExactly(last, username, localTime, categories, criticalThreshold);
      SheetsSnoc(ParsedGames(init, username, localTime, categories, criticalThreshold), Filter(init, Complete(username)),
                 last, username, localTime, categories, criticalThreshold);
    }
  }

  /** A record that parses adds its sheet; one that does not adds nothing. */
  lemma SheetsSnoc(parsed: seq<ParsedGame>, ok: seq<RawGame>, g: RawGame, username: string, localTime: int -> int,
                   categories: seq<TimeCategory>, criticalThreshold: real)
    requires SheetsOf(parsed, ok, username, localTime, categories, criticalThreshold)
    ensures var r := ParseGameSpec(g, username, localTime, categories, criticalThreshold);
      SheetsOf(parsed + (if r.Ok? then [r.value] else []), ok + (if r.Ok? then [g] else []),
               username, localTime, categories, criticalThreshold)
  {
  }

  /** Every record lacks a field. */
  predicate NoneComplete(games: seq<RawGame>, username: string) {
    forall k :: 0 <= k < |games| ==> !HasRequiredFields(games[k], username)
  }

  /** Nothing is kept exactly when every record lacks a field. */
  lemma NothingParsed(games: seq<RawGame>, username: string, localTime: int -> int,
                                         categories: seq<TimeCategory>, criticalThreshold: real)
    ensures ParsedGames(games, username, localTime, categories, criticalThreshold) == [] <==> NoneComplete(games, username)
  {
    ParsedIsFilter(games, username, localTime, categories, criticalThreshold);
    FilterEmpty(games, Complete(username));
  }

  // ---------------------------------------------------------------------------
  // analyze
  // ---------------------------------------------------------------------------

  /** The five insight groups for the readings of one metrics dict. */
  function InsightsSpec(v: MetricsView): Insights {
    Insights(PrioritiesSpec(v), StrengthsSpec(v), RecommendationsSpec(v), PatternsSpec(v), ProjectionsSpec(v))
  }

  /**
   * Three priorities, four strengths, and three to five recommendations
   * that open with the priorities' actions.
   */
  lemma InsightsFacts(v: MetricsView)
    ensures var i := InsightsSpec(v);
      && |i.priorities| == 3
      && |i.strengths| == 4
      && 3 <= |i.recommendations| <= 5
      && forall k :: 0 <= k < 3 ==> i.recommendations[k] == Action(i.priorities[k])
  {
    PrioritiesFacts(v);
    StrengthsFacts(v);
    RecommendationsFacts(v);
  }

  /** The report for a metrics dict, a rating and its level. */
  function ReportOf(m: CalculatedMetrics, username: string, rating: int, level: string): Report {
    Report(m, PlayerInfo(username, rating, level), InsightsSpec(ViewOf(m, rating)))
  }

  /**
   * What `analyze` returns after the fetch: `Ok(None)` for the `(None, None)`
   * of an empty fetch, the report, or the exception raised on the way. The
   * rating level is looked up before `basic_stats` is written, so its
   * failure comes first.
   */
  function AnalyzeSpec(gamesJson: seq<RawGame>, statsRating: Option<int>, username: string, localTime: int -> int,
                       categories: seq<TimeCategory>, criticalThreshold: real,
                       levels: seq<(int, string)>): Result<Option<Report>, AnalyzeFailure>
  {
    if gamesJson == [] then Ok(None)
    else
      var metrics := MetricsSpec(ParsedGames(gamesJson, username, localTime, categories, criticalThreshold));
      var rating := statsRating.GetOr(0);
      match RatingLevelSpec(levels, rating)
      case None => Err(NoRatingLevel)
      case Some(level) =>
        if metrics.None? then Err(MissingBasicStats)
        else Ok(Some(ReportOf(metrics.value, username, rating, level)))
  }

  /**
   * `ChessAnalyzer.analyze` from its fetched inputs: `gamesJson` is what
   * `fetch_games` returned and `statsRating` the `rating` key of
   * `fetch_player_stats` (absent when that call returned `{}`).
   */
  method Analyze(gamesJson: seq<RawGame>, statsRating: Option<int>, username: string, localTime: int -> int,
                 categories: seq<TimeCategory>, criticalThreshold: real,
                 levels: seq<(int, string)>) returns (r: Result<Option<Report>, AnalyzeFailure>)
    ensures r == AnalyzeSpec(gamesJson, statsRating, username, localTime, categories, criticalThreshold, levels)
  {
    if gamesJson == [] {
      return Ok(None);
    }
    var parsedGames := ParseAll(gamesJson, username, localTime, categories, criticalThreshold);
    var metrics := CalculateAllMetrics(parsedGames);
    var currentRating := statsRating.GetOr(0);
    var ratingLevel := GetRatingLevel(levels, currentRating);
    if ratingLevel.None? {
      return Err(NoRatingLevel);
    }
    var playerInfo := PlayerInfo(username, currentRating, ratingLevel.value);
    if metrics.None? {
      return Err(MissingBasicStats);
    }
    var view := ViewOf(metrics.value, currentRating);
    var priorities := GeneratePriorities(view);
    var strengths := GenerateStrengths(view);
    var recommendations := GenerateRecommendations(view);
    var insights := Insights(priorities, strengths, recommendations, PatternsSpec(view), ProjectionsSpec(view));
    r := Ok(Some(Report(metrics.value, playerInfo, insights)));
  }

  /**
   * An empty fetch gives `(None, None)`; otherwise the rating level is
   * looked up first, and `analyze` raises there exactly when the rating is
   * below every threshold.
   */
  lemma AnalyzeOutcomes(gamesJson: seq<RawGame>, statsRating: Option<int>, username: string, localTime: int -> int,
                        categories: seq<TimeCategory>, criticalThreshold: real, levels: seq<(int, string)>)
    ensures var r := AnalyzeSpec(gamesJson, statsRating, username, localTime, categories, criticalThreshold, levels);
      && (gamesJson == [] <==> r == Ok(None))
      && (r == Err(NoRatingLevel) <==> gamesJson != [] && forall p :: p in levels ==> statsRating.GetOr(0) < p.0)
  {
    NoLevelExactly(levels, statsRating.GetOr(0));
  }

  /**
   * When every record fails to parse, the metrics dict is empty and
   * `analyze` raises on its `basic_stats`, provided the rating level was
   * found; it raises there in no other case.
   */
  lemma AllRecordsFail(gamesJson: seq<RawGame>, statsRating: Option<int>, username: string, localTime: int -> int,
                       categories: seq<TimeCategory>, criticalThreshold: real, levels: seq<(int, string)>)
    ensures AnalyzeSpec(gamesJson, statsRating, username, localTime, categories, criticalThreshold, levels) == Err(MissingBasicStats)
      <==> gamesJson != [] && RatingLevelSpec(levels, statsRating.GetOr(0)).Some? && NoneComplete(gamesJson, username)
  {
    var parsed := ParsedGames(gamesJson, username, localTime, categories, criticalThreshold);
    var r := AnalyzeSpec(gamesJson, statsRating, username, localTime, categories, criticalThreshold, levels);
    NothingParsed(gamesJson, username, localTime, categories, criticalThreshold);
    if gamesJson != [] && RatingLevelSpec(levels, statsRating.GetOr(0)).Some? {
      var level := RatingLevelSpec(levels, statsRating.GetOr(0)).value;
      if parsed == [] {
        assert MetricsSpec(parsed).None?;
        assert r == Err(MissingBasicStats);
      } else {
        var m := MetricsSpec(parsed).value;
        assert r == Ok(Some(ReportOf(m, username, statsRating.GetOr(0), level)));
      }
    }
  }

  /**
   * A report counts every record that parsed, carries the rating read from
   * the stats, names the level of the highest threshold that rating
   * reaches, and holds the insights of its own metrics.
   */
  lemma ReportFacts(gamesJson: seq<RawGame>, statsRating: Option<int>, username: string, localTime: int -> int,
                    categories: seq<TimeCategory>, criticalThreshold: real, levels: seq<(int, string)>)
    requires AnalyzeSpec(gamesJson, statsRating, username, localTime, categories, criticalThreshold, levels).Ok?
    requires AnalyzeSpec(gamesJson, statsRating, username, localTime, categories, criticalThreshold, levels).value.Some?
    ensures var report := AnalyzeSpec(gamesJson, statsRating, username, localTime, categories, criticalThreshold, levels).value.value;
      var info := report.playerInfo;
      && report.metrics.basicStats.totalGames == Count(gamesJson, Complete(username))
      && info.username == username
      && info.currentRating == statsRating.GetOr(0)
      && LevelOfHighest(levels, info.currentRating, info.ratingLevel)
      && report.insights == InsightsSpec(ViewOf(report.metrics, info.currentRating))
  {
    var parsed := ParsedGames(gamesJson, username, localTime, categories, criticalThreshold);
    var rating := statsRating.GetOr(0);
    var level := RatingLevelSpec(levels, rating).value;
    ReportIsOf(gamesJson, statsRating, username, localTime, categories, criticalThreshold, levels);
    ReportCountsParsed(parsed);
    ParsedIsFilter(gamesJson, username, localTime, categories, criticalThreshold);
    RatingLevelIsHighest(levels, rating);
  }

  /** The report is the one for the metrics of the parsed records. */
  lemma ReportIsOf(gamesJson: seq<RawGame>, statsRating: Option<int>, username: string, localTime: int -> int,
                   categories: seq<TimeCategory>, criticalThreshold: real, levels: seq<(int, string)>)
    requires AnalyzeSpec(gamesJson, statsRating, username, localTime, categories, criticalThreshold, levels).Ok?
    requires AnalyzeSpec(gamesJson, statsRating, username, localTime, categories, criticalThreshold, levels).value.Some?
    ensures var parsed := ParsedGames(gamesJson, username, localTime, categories, criticalThreshold);
      var rating := statsRating.GetOr(0);
      && parsed != []
      && RatingLevelSpec(levels, rating).Some?
      && AnalyzeSpec(gamesJson, statsRating, username, localTime, categories, criticalThreshold, levels).value.value
         == ReportOf(MetricsSpec(parsed).value, username, rating, RatingLevelSpec(levels, rating).value)
  {
  }

  /** The metrics of a non-empty list count all of its games. */
  lemma ReportCountsParsed(parsed: seq<ParsedGame>)
    requires parsed != []
    ensures MetricsSpec(parsed).value.basicStats.totalGames == |parsed|
  {
  }

  /**
   * With the metrics computed from games, the tactical loss rate is the
   * fixed 40, so the tactical priority is listed whenever fewer than three
   * of the black repertoire, time and opening rules fire.
   */
  lemma TacticalAlwaysConsidered(m: CalculatedMetrics, rating: int)
    requires m.tacticalMetrics.tacticalLossRate == TacticalLossRate
    ensures var v := ViewOf(m, rating);
      HasTactical(PrioritiesSpec(v)) <==> FirstRulesFired(v) < 3
  {
    PrioritiesFacts(ViewOf(m, rating));
  }

  /** Every metrics dict computed from games carries the fixed tactical loss rate. */
  lemma ComputedTacticalRate(games: seq<ParsedGame>)
    requires games != []
    ensures MetricsSpec(games).value.tacticalMetrics.tacticalLossRate == TacticalLossRate
  {
    assert MetricsSpec(games).value.tacticalMetrics == TacticalSpec(games);
  }
}
