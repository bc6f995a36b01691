/**
 * `calculate_all_metrics` (analyzer/metrics_calculator.py): every metric
 * group over the same parsed games, or nothing at all for an empty list.
 */
module AllMetrics {
  import opened Wrappers
  import opened Tally
  import opened Grouping
  import opened GameParser
  import opened Metrics
  import opened ExchangeMetrics
  import opened TrendMetrics

  /** The dict `calculate_all_metrics` returns for a non-empty list. */
  datatype CalculatedMetrics = CalculatedMetrics(
    basicStats: BasicStats,
    colorPerformance: ColorPerformance,
    timeControlStats: map<string, TimeControlStats>,
    openingMetrics: OpeningMetrics,
    phaseMetrics: PhaseMetrics,
    timeMetrics: TimeMetrics,
    patternMetrics: PatternMetrics,
    opponentMetrics: OpponentMetrics,
    psychologicalMetrics: PsychologicalMetrics,
    pieceExchangeMetrics: PieceExchangeMetrics,
    tacticalMetrics: TacticalMetrics,
    performanceTrends: PerformanceTrends)

  /** The metrics of `games`; `None` stands for the empty dict returned for no games. */
  function MetricsSpec(games: seq<ParsedGame>): Option<CalculatedMetrics> {
    if games == [] then None
    else Some(CalculatedMetrics(
      BasicStatsOf(games), ColorPerformanceOf(games), TimeControlStatsSpec(games), OpeningMetricsSpec(games),
      PhaseMetricsSpec(games), TimeMetricsSpec(games), PatternMetricsSpec(games), OpponentMetricsSpec(games),
      PsychologicalSpec(games), PieceExchangeSpec(games), TacticalSpec(games), PerformanceTrendsSpec(games)))
  }

  /** `calculate_all_metrics`: each group in turn, after the empty-list guard. */
  method CalculateAllMetrics(games: seq<ParsedGame>) returns (r: Option<CalculatedMetrics>)
    ensures r == MetricsSpec(games)
    ensures r.None? <==> games == []
  {
    if games == [] {
      return None;
    }
    var timeControls := TimeControlStatsOf(games);
    var openings := OpeningMetricsOf(games);
    var phases := PhaseMetricsOf(games);
    var times := TimeMetricsOf(games);
    var patterns := PatternMetricsOf(games);
    var opponents := OpponentMetricsOf(games);
    var psychological := PsychologicalMetricsOf(games);
    var exchange := PieceExchangeMetricsOf(games);
    var tactical := TacticalMetricsOf(games);
    var trends := PerformanceTrendsOf(games);
    r := Some(CalculatedMetrics(
      BasicStatsOf(games), ColorPerformanceOf(games), timeControls, openings, phases, times, patterns,
      opponents, psychological, exchange, tactical, trends));
  }

  /**
   * The groups agree on the totals: the colours, the end phases and the
   * opponent rating ranges each split the games; the colours split the wins
   * and the losses; the termination tallies of the wins and of the losses
   * count every win and every loss.
   */
  lemma MetricsAgree(games: seq<ParsedGame>)
    requires games != []
    ensures var m := MetricsSpec(games).value;
      && m.basicStats.totalGames == |games|
      && m.colorPerformance.whiteGames + m.colorPerformance.blackGames == m.basicStats.totalGames
      && m.colorPerformance.whiteWins + m.colorPerformance.blackWins == m.basicStats.wins
      && m.colorPerformance.whiteLosses + m.colorPerformance.blackLosses == m.basicStats.losses
      && m.phaseMetrics.opening.games + m.phaseMetrics.middlegame.games + m.phaseMetrics.endgame.games == m.basicStats.totalGames
      && SumCounts(m.patternMetrics.winPatterns.termination) == m.basicStats.wins
      && SumCounts(m.patternMetrics.lossPatterns.termination) == m.basicStats.losses
  {
    ColorsSplitGames(games);
    PhaseMetricsFacts(games);
    PatternMetricsFacts(games);
  }

  /** The rating ranges of the opponent table split the games the basic stats count. */
  lemma RangesAgree(games: seq<ParsedGame>)
    requires games != []
    ensures var m := MetricsSpec(games).value;
      var d := m.opponentMetrics.ratingDistribution;
      && d.Keys == AllRanges
      && d[Under600].games + d[From600To700].games + d[From700To800].games + d[From800].games == m.basicStats.totalGames
  {
    OpponentMetricsFacts(games);
  }
}
