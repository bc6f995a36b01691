/**
 * The rule-based insight generator (insights/rule_based_insights.py):
 * threshold rules over a handful of metric readings, padded to fixed-length
 * lists of priorities and strengths, the recommendations built from the
 * priorities, the winning and losing conditions, and the rating projections.
 */
module RuleBasedInsights {
  import opened Wrappers
  import opened Tally
  import opened Grouping
  import opened GameParser
  import opened Metrics
  import opened ExchangeMetrics
  import opened AllMetrics

  /**
   * The readings the rules take from the metrics dict. Every reading is a
   * `.get` with a default, so `None` stands for a missing key and the rules
   * use the default in its place.
   */
  datatype MetricsView = MetricsView(
    whiteWinRate: Option<real>,
    blackWinRate: Option<real>,
    timeLossPercentage: Option<real>,
    timePressurePct: Option<real>,
    openingLossRate: Option<real>,
    endgameWinRate: Option<real>,
    overallWinRate: Option<real>,
    tacticalLossRate: Option<real>,
    recoveryRate: Option<real>,
    maxLossStreak: Option<nat>,
    winningPatterns: Option<seq<PatternLine>>,
    tradeFrequencyWhenAhead: Option<real>,
    winTerminations: Option<seq<(string, nat)>>,
    winGameLengths: Option<seq<int>>,
    lossTerminations: Option<seq<(string, nat)>>,
    lossGameLengths: Option<seq<int>>,
    currentRating: Option<int>)

  /** `termination` as the parsed games store it. */
  function TerminationName(t: Termination): string {
    match t
    case ByCheckmate => "checkmate"
    case ByResignation => "resignation"
    case OnTime => "time"
    case ByStalemate => "stalemate"
    case ByAgreement => "draw"
    case OtherEnding => "other"
  }

  function NamedCount(e: (Termination, nat)): (string, nat) { (TerminationName(e.0), e.1) }

  /** The readings of a full metrics dict with `player_info` added: every key is present. */
  function ViewOf(m: CalculatedMetrics, currentRating: int): MetricsView {
    MetricsView(
      Some(m.colorPerformance.whiteWinRate), Some(m.colorPerformance.blackWinRate),
      Some(m.timeMetrics.timeLossPercentage), Some(m.timeMetrics.timePressurePct),
      Some(m.phaseMetrics.opening.lossRate), Some(m.phaseMetrics.endgame.winRate),
      Some(m.basicStats.winRate), Some(m.tacticalMetrics.tacticalLossRate),
      Some(m.psychologicalMetrics.recoveryRate), Some(m.psychologicalMetrics.maxLossStreak),
      Some(m.tacticalMetrics.winningPatterns), Some(m.pieceExchangeMetrics.tradeFrequencyWhenAhead),
      Some(MapSeq(m.patternMetrics.winPatterns.termination, NamedCount)), Some(m.patternMetrics.winPatterns.gameLength),
      Some(MapSeq(m.patternMetrics.lossPatterns.termination, NamedCount)), Some(m.patternMetrics.lossPatterns.gameLength),
      Some(currentRating))
  }

  /** The rating assumed when `player_info` has none. */
  const DefaultRating: int := 700

  function RatingOf(v: MetricsView): int { v.currentRating.GetOr(DefaultRating) }

  // ---------------------------------------------------------------------------
  // generate_priorities
  // ---------------------------------------------------------------------------

  /** A priority: its title, with the figures its `stat` line shows (emoji and text formatting left out). */
  datatype Priority =
    | BlackRepertoireCrisis(blackWinRate: real, gap: real)
    | TimeManagement(timeLossRate: real)
    | OpeningPreparation(openingLossRate: real)
    | TacticalAwareness(tacticalLossRate: real)
    | EndgameTechnique(endgameWinRate: real)
    | GeneralImprovement(currentRating: int)

  /** The `action` of a priority. */
  function Action(p: Priority): string {
    match p
    case BlackRepertoireCrisis(_, _) => "Study the French Defense or Caro-Kann for solid Black play"
    case TimeManagement(_) => "Practice 10+0 time control before returning to bullet"
    case OpeningPreparation(_) => "Learn 5-10 moves deep in your main openings"
    case TacticalAwareness(_) => "Do 15 minutes of tactical puzzles daily"
    case EndgameTechnique(_) => "Study basic king and pawn endgames"
    case GeneralImprovement(_) => "Focus on basic principles and avoid blunders"
  }

  /** White's win rate minus Black's. */
  function ColorGap(v: MetricsView): real { v.whiteWinRate.GetOr(0.0) - v.blackWinRate.GetOr(0.0) }

  predicate BlackRule(v: MetricsView) { ColorGap(v) >= 15.0 }
  predicate TimeRule(v: MetricsView) { v.timeLossPercentage.GetOr(0.0) >= 25.0 }
  predicate OpeningRule(v: MetricsView) { v.openingLossRate.GetOr(0.0) >= 50.0 }
  predicate TacticalRule(v: MetricsView) { v.tacticalLossRate.GetOr(0.0) >= 40.0 }
  predicate EndgameRule(v: MetricsView) { v.endgameWinRate.GetOr(0.0) <= 60.0 }

  /** How many of the first three rules fire. */
  function FirstRulesFired(v: MetricsView): nat {
    (if BlackRule(v) then 1 else 0) + (if TimeRule(v) then 1 else 0) + (if OpeningRule(v) then 1 else 0)
  }

  /** The tactical entry goes in when its rule fires and there is still room. */
  predicate TacticalAdded(v: MetricsView) { TacticalRule(v) && FirstRulesFired(v) < 3 }

  /** The endgame entry goes in when its rule fires and there is still room after the tactical one. */
  predicate EndgameAdded(v: MetricsView) {
    EndgameRule(v) && FirstRulesFired(v) + (if TacticalAdded(v) then 1 else 0) < 3
  }

  /** The entries after each check, in check order. */
  function AfterBlack(v: MetricsView): seq<Priority> {
    if BlackRule(v) then [BlackRepertoireCrisis(v.blackWinRate.GetOr(0.0), ColorGap(v))] else []
  }

  function AfterTime(v: MetricsView): seq<Priority> {
    AfterBlack(v) + (if TimeRule(v) then [TimeManagement(v.timeLossPercentage.GetOr(0.0))] else [])
  }

  function AfterOpening(v: MetricsView): (ps: seq<Priority>)
    ensures |ps| == FirstRulesFired(v)
  {
    AfterTime(v) + (if OpeningRule(v) then [OpeningPreparation(v.openingLossRate.GetOr(0.0))] else [])
  }

  function AfterTactics(v: MetricsView): (ps: seq<Priority>)
    ensures |ps| == FirstRulesFired(v) + (if TacticalAdded(v) then 1 else 0)
  {
    AfterOpening(v) + (if TacticalAdded(v) then [TacticalAwareness(v.tacticalLossRate.GetOr(0.0))] else [])
  }

  /** The entries the rules produce, in check order. */
  function RulePriorities(v: MetricsView): (ps: seq<Priority>)
    ensures |ps| == FirstRulesFired(v) + (if TacticalAdded(v) then 1 else 0) + (if EndgameAdded(v) then 1 else 0)
    ensures |ps| <= 3
  {
    AfterTactics(v) + (if EndgameAdded(v) then [EndgameTechnique(v.endgameWinRate.GetOr(0.0))] else [])
  }

  /** `n` general-improvement entries. */
  function Padding(rating: int, n: nat): (ps: seq<Priority>)
    ensures |ps| == n
    ensures forall k :: 0 <= k < n ==> ps[k] == GeneralImprovement(rating)
  {
    Repeat(GeneralImprovement(rating), n)
  }

  /** The priorities: the rule entries, padded to three with general improvement. */
  function PrioritiesSpec(v: MetricsView): seq<Priority> {
    var rules := RulePriorities(v);
    rules + Padding(RatingOf(v), 3 - |rules|)
  }

  /** `generate_priorities`: the rules in order, then the padding loop, then the first three. */
  method GeneratePriorities(v: MetricsView) returns (priorities: seq<Priority>)
    ensures priorities == PrioritiesSpec(v)
    ensures |priorities| == 3
  {
    priorities := [];
    var gap := v.whiteWinRate.GetOr(0.0) - v.blackWinRate.GetOr(0.0);
    if gap >= 15.0 {
      priorities := priorities + [BlackRepertoireCrisis(v.blackWinRate.GetOr(0.0), gap)];
    }
    assert priorities == AfterBlack(v);
    var timeLossRate := v.timeLossPercentage.GetOr(0.0);
    if timeLossRate >= 25.0 {
      priorities := priorities + [TimeManagement(timeLossRate)];
    }
    assert priorities == AfterTime(v);
    var openingLossRate := v.openingLossRate.GetOr(0.0);
    if openingLossRate >= 50.0 {
      priorities := priorities + [OpeningPreparation(openingLossRate)];
    }
    assert priorities == AfterOpening(v);
    var tacticalLossRate := v.tacticalLossRate.GetOr(0.0);
    if tacticalLossRate >= 40.0 && |priorities| < 3 {
      priorities := priorities + [TacticalAwareness(tacticalLossRate)];
    }
    assert priorities == AfterTactics(v);
    var endgameWinRate := v.endgameWinRate.GetOr(0.0);
    if endgameWinRate <= 60.0 && |priorities| < 3 {
      priorities := priorities + [EndgameTechnique(endgameWinRate)];
    }
    assert priorities == RulePriorities(v);
    var currentRating := v.currentRating.GetOr(DefaultRating);
    priorities := PadWith(priorities, GeneralImprovement(currentRating), 3);
    priorities := Take(priorities, 3);
  }

  /** The kind of entry `k` is in `ps`. */
  predicate HasBlack(ps: seq<Priority>) { exists k :: 0 <= k < |ps| && ps[k].BlackRepertoireCrisis? }
  predicate HasTime(ps: seq<Priority>) { exists k :: 0 <= k < |ps| && ps[k].TimeManagement? }
  predicate HasOpening(ps: seq<Priority>) { exists k :: 0 <= k < |ps| && ps[k].OpeningPreparation? }
  predicate HasTactical(ps: seq<Priority>) { exists k :: 0 <= k < |ps| && ps[k].TacticalAwareness? }
  predicate HasEndgame(ps: seq<Priority>) { exists k :: 0 <= k < |ps| && ps[k].EndgameTechnique? }

  /**
   * Each rule's entry is among the three priorities exactly when the rule
   * fires and, for the tactical and endgame rules, there is still room; the
   * black repertoire entry always comes first; general improvement fills
   * only the tail.
   */
  lemma PrioritiesFacts(v: MetricsView)
    ensures var ps := PrioritiesSpec(v);
      && |ps| == 3
      && (HasBlack(ps) <==> BlackRule(v))
      && (BlackRule(v) ==> ps[0] == BlackRepertoireCrisis(v.blackWinRate.GetOr(0.0), ColorGap(v)))
      && (HasTime(ps) <==> TimeRule(v))
      && (HasOpening(ps) <==> OpeningRule(v))
      && (HasTactical(ps) <==> TacticalAdded(v))
      && (HasEndgame(ps) <==> EndgameAdded(v))
      && (forall i, j :: 0 <= i < j < 3 && ps[i].GeneralImprovement? ==> ps[j].GeneralImprovement?)
  {
    var ps := PrioritiesSpec(v);
    var rules := RulePriorities(v);
    assert forall k :: 0 <= k < |rules| ==> !rules[k].GeneralImprovement?;
    assert forall k :: |rules| <= k < 3 ==> ps[k] == GeneralImprovement(RatingOf(v));
    RuleEntries(v);
  }

  /** The rule entries hold exactly one entry per rule that fired. */
  lemma RuleEntries(v: MetricsView)
    ensures var rules := RulePriorities(v);
      var ps := PrioritiesSpec(v);
      && (HasBlack(ps) <==> BlackRule(v))
      && (HasTime(ps) <==> TimeRule(v))
      && (HasOpening(ps) <==> OpeningRule(v))
      && (HasTactical(ps) <==> TacticalAdded(v))
      && (HasEndgame(ps) <==> EndgameAdded(v))
  {
    var ps := PrioritiesSpec(v);
    if BlackRule(v) { assert ps[0].BlackRepertoireCrisis?; }
    if TimeRule(v) { assert ps[FirstRulesFired(v) - 1 - (if OpeningRule(v) then 1 else 0)].TimeManagement?; }
    if OpeningRule(v) { assert ps[FirstRulesFired(v) - 1].OpeningPreparation?; }
    if TacticalAdded(v) { assert ps[FirstRulesFired(v)].TacticalAwareness?; }
    if EndgameAdded(v) { assert ps[|RulePriorities(v)| - 1].EndgameTechnique?; }
  }

  // ---------------------------------------------------------------------------
  // generate_strengths
  // ---------------------------------------------------------------------------

  /** A strength; `StrengthText` gives the line the report prints. */
  datatype Strength =
    | EndgameSkill
    | PsychologicalResilience
    | SpotsPattern(name: string)
    | TradingWhenAhead
    | ConsistentPlay
    | PatienceInComplexPositions
    | QuickPatternRecognition
    | SolidOpeningKnowledge

  function StrengthText(s: Strength): string {
    match s
    case EndgameSkill => "Endgame Technique: Significantly above your rating level"
    case PsychologicalResilience => "Psychological Resilience: Excellent recovery from losses"
    case SpotsPattern(name) => name + ": You spot these well!"
    case TradingWhenAhead => "Trading When Ahead: Excellent simplification instincts"
    case ConsistentPlay => "Consistent play across time controls"
    case PatienceInComplexPositions => "Patience in complex positions"
    case QuickPatternRecognition => "Quick pattern recognition"
    case SolidOpeningKnowledge => "Solid opening knowledge"
  }

  /** `default_strengths`, in the order they are taken. */
  const DefaultStrengths: seq<Strength> := [ConsistentPlay, PatienceInComplexPositions, QuickPatternRecognition, SolidOpeningKnowledge]

  predicate EndgameStrong(v: MetricsView) { v.endgameWinRate.GetOr(0.0) > v.overallWinRate.GetOr(0.0) + 10.0 }
  predicate Resilient(v: MetricsView) { v.recoveryRate.GetOr(0.0) > 60.0 }
  predicate SpotsPatterns(v: MetricsView) { v.winningPatterns.GetOr([]) != [] }
  predicate TradesWhenAhead(v: MetricsView) { v.tradeFrequencyWhenAhead.GetOr(0.0) >= 75.0 }

  /** The strengths found after each check, in check order. */
  function WithEndgame(v: MetricsView): seq<Strength> {
    if EndgameStrong(v) then [EndgameSkill] else []
  }

  function WithResilience(v: MetricsView): seq<Strength> {
    WithEndgame(v) + (if Resilient(v) then [PsychologicalResilience] else [])
  }

  function WithPatterns(v: MetricsView): seq<Strength> {
    WithResilience(v) + (if SpotsPatterns(v) then [SpotsPattern(v.winningPatterns.GetOr([])[0].name)] else [])
  }

  /** The strengths the metrics show, in check order. */
  function FoundStrengths(v: MetricsView): (s: seq<Strength>)
    ensures |s| <= 4
  {
    WithPatterns(v) + (if TradesWhenAhead(v) then [TradingWhenAhead] else [])
  }

  /** The strengths: those found, topped up to four from the defaults in order. */
  function StrengthsSpec(v: MetricsView): seq<Strength> {
    var found := FoundStrengths(v);
    found + DefaultStrengths[..4 - |found|]
  }

  /**
   * `generate_strengths`: the four checks, then the loop that pops defaults
   * until there are four. The defaults never run out, so the loop always
   * ends.
   */
  method GenerateStrengths(v: MetricsView) returns (strengths: seq<Strength>)
    ensures strengths == StrengthsSpec(v)
    ensures |strengths| == 4
  {
    strengths := [];
    var endgameWinRate := v.endgameWinRate.GetOr(0.0);
    var overallWinRate := v.overallWinRate.GetOr(0.0);
    if endgameWinRate > overallWinRate + 10.0 {
      strengths := strengths + [EndgameSkill];
    }
    assert strengths == WithEndgame(v);
    if v.recoveryRate.GetOr(0.0) > 60.0 {
      strengths := strengths + [PsychologicalResilience];
    }
    assert strengths == WithResilience(v);
    var winningPatterns := v.winningPatterns.GetOr([]);
    if winningPatterns != [] {
      strengths := strengths + [SpotsPattern(winningPatterns[0].name)];
    }
    assert strengths == WithPatterns(v);
    if v.tradeFrequencyWhenAhead.GetOr(0.0) >= 75.0 {
      strengths := strengths + [TradingWhenAhead];
    }
    strengths := FillStrengths(strengths);
  }

  /** The padding loop of `generate_strengths`: pop defaults, front first, until there are four. */
  method FillStrengths(found: seq<Strength>) returns (strengths: seq<Strength>)
    requires |found| <= 4
    ensures strengths == found + DefaultStrengths[..4 - |found|]
    ensures |strengths| == 4
  {
    strengths := PadFrom(found, DefaultStrengths, 4);
    strengths := Take(strengths, 4);
  }

  /** The padding loop of `generate_priorities`: append `x` until there are `n` entries. */
  method PadWith<T>(s: seq<T>, x: T, n: nat) returns (r: seq<T>)
    requires |s| <= n
    ensures r == s + Repeat(x, n - |s|)
  {
    r := s;
    while |r| < n
      invariant |s| <= |r| <= n
      invariant r == s + Repeat(x, |r| - |s|)
      decreases n - |r|
    {
      RepeatSnoc(x, |r| - |s|);
      r := r + [x];
    }
  }

  /** Append entries popped from the front of `defaults` until there are `n`. */
  method PadFrom<T>(s: seq<T>, defaults: seq<T>, n: nat) returns (r: seq<T>)
    requires |s| <= n <= |s| + |defaults|
    ensures r == s + defaults[..n - |s|]
  {
    r := s;
    var rest := defaults;
    while |r| < n
      invariant |s| <= |r| <= n
      invariant r == s + defaults[..|r| - |s|]
      invariant rest == defaults[|r| - |s|..]
      decreases n - |r|
    {
      if rest != [] {
        assert defaults[..|r| - |s| + 1] == defaults[..|r| - |s|] + [rest[0]];
        r := r + [rest[0]];
        rest := rest[1..];
      } else {
        assert false;
      }
    }
  }

  /**
   * Four strengths: first those the metrics show, in check order, each
   * exactly when its check holds, then the defaults from the first on.
   */
  lemma StrengthsFacts(v: MetricsView)
    ensures var s := StrengthsSpec(v);
      var found := FoundStrengths(v);
      && |s| == 4
      && s[..|found|] == found
      && (forall k :: |found| <= k < 4 ==> s[k] == DefaultStrengths[k - |found|])
  {
    var found := FoundStrengths(v);
    var s := StrengthsSpec(v);
    assert s[..|found|] == found;
  }

  /** One of the four fallback strengths. */
  predicate IsDefault(s: Strength) {
    s.ConsistentPlay? || s.PatienceInComplexPositions? || s.QuickPatternRecognition? || s.SolidOpeningKnowledge?
  }

  /**
   * Each check contributes its strength exactly when it holds, and none of
   * them is one of the defaults.
   */
  lemma FoundStrengthsExactly(v: MetricsView)
    ensures var found := FoundStrengths(v);
      && (EndgameSkill in found <==> EndgameStrong(v))
      && (PsychologicalResilience in found <==> Resilient(v))
      && (TradingWhenAhead in found <==> TradesWhenAhead(v))
      && (forall x :: x in found ==> !IsDefault(x))
  {
    var e: seq<Strength> := if EndgameStrong(v) then [EndgameSkill] else [];
    var r: seq<Strength> := if Resilient(v) then [PsychologicalResilience] else [];
    var p: seq<Strength> := if SpotsPatterns(v) then [SpotsPattern(v.winningPatterns.GetOr([])[0].name)] else [];
    var t: seq<Strength> := if TradesWhenAhead(v) then [TradingWhenAhead] else [];
    assert FoundStrengths(v) == e + r + p + t;
    assert EndgameSkill !in r + p + t;
    assert PsychologicalResilience !in e && PsychologicalResilience !in p + t;
    assert TradingWhenAhead !in e + r + p;
  }

  // ---------------------------------------------------------------------------
  // generate_recommendations
  // ---------------------------------------------------------------------------

  const TiltBreak := "Take breaks after 2 consecutive losses to avoid tilt"
  const PreMove := "Pre-move in obvious positions to save time"

  predicate Tilts(v: MetricsView) { v.maxLossStreak.GetOr(0) >= 5 }
  predicate PressedForTime(v: MetricsView) { v.timePressurePct.GetOr(0.0) > 50.0 }

  /** The recommendations: the priorities' actions, then the tilt and time advice when they apply. */
  function RecommendationsSpec(v: MetricsView): seq<string> {
    MapSeq(PrioritiesSpec(v), Action)
      + (if Tilts(v) then [TiltBreak] else [])
      + (if PressedForTime(v) then [PreMove] else [])
  }

  /** `generate_recommendations`: one action per priority, then the two pattern checks. */
  method GenerateRecommendations(v: MetricsView) returns (recommendations: seq<string>)
    ensures recommendations == RecommendationsSpec(v)
    ensures 3 <= |recommendations| <= 5
    ensures forall k :: 0 <= k < 3 ==> recommendations[k] == Action(PrioritiesSpec(v)[k])
  {
    recommendations := [];
    var priorities := GeneratePriorities(v);
    for i := 0 to |priorities|
      invariant recommendations == MapSeq(priorities[..i], Action)
    {
      PrefixSnoc(priorities, i);
      MapSeqSnoc(priorities[..i], priorities[i], Action);
      recommendations := recommendations + [Action(priorities[i])];
    }
    assert priorities[..|priorities|] == priorities;
    if v.maxLossStreak.GetOr(0) >= 5 {
      recommendations := recommendations + [TiltBreak];
    }
    if v.timePressurePct.GetOr(0.0) > 50.0 {
      recommendations := recommendations + [PreMove];
    }
  }

  /**
   * Three to five recommendations: the actions of the three priorities in
   * order, then the tilt advice exactly when the loss streak reaches 5.
   */
  lemma RecommendationsFacts(v: MetricsView)
    ensures var rs := RecommendationsSpec(v);
      && 3 <= |rs| <= 5
      && (forall k :: 0 <= k < 3 ==> rs[k] == Action(PrioritiesSpec(v)[k]))
      && (Tilts(v) ==> rs[3] == TiltBreak)
      && (|rs| == 3 <==> !Tilts(v) && !PressedForTime(v))
      && (PressedForTime(v) ==> rs[|rs| - 1] == PreMove)
  {
    PrioritiesFacts(v);
  }

  // ---------------------------------------------------------------------------
  // generate_patterns and _get_most_common
  // ---------------------------------------------------------------------------

  /**
   * `_get_most_common`: `'none'` for an empty count dict, otherwise the key
   * of the first entry, in insertion order, with the largest count.
   */
  function GetMostCommon(counts: seq<(string, nat)>): (r: string)
    ensures counts == [] ==> r == "none"
    ensures counts != [] ==> exists i :: 0 <= i < |counts| && IsFirstMax(counts, i) && counts[i].0 == r
  {
    match MostCommon(counts)
    case None => "none"
    case Some(key) => key
  }

  /** `{'most_common_termination', 'avg_game_length'}`. */
  datatype Conditions = Conditions(mostCommonTermination: string, avgGameLength: real)

  /** The dict `generate_patterns` returns. */
  datatype Patterns = Patterns(winningConditions: Conditions, losingConditions: Conditions)

  function Identity(n: int): int { n }

  /** One side's conditions: the most common termination and the mean game length, 0 without games. */
  function ConditionsOf(terminations: Option<seq<(string, nat)>>, lengths: Option<seq<int>>): Conditions {
    var ls := lengths.GetOr([]);
    Conditions(GetMostCommon(terminations.GetOr([])), Average(Sum(ls, Identity) as real, |ls|))
  }

  /** `generate_patterns`. */
  function PatternsSpec(v: MetricsView): Patterns {
    Patterns(ConditionsOf(v.winTerminations, v.winGameLengths), ConditionsOf(v.lossTerminations, v.lossGameLengths))
  }

  /** The mean game length is the total over the number of games, and 0 when there are none. */
  lemma ConditionsFacts(terminations: Option<seq<(string, nat)>>, lengths: Option<seq<int>>)
    ensures var c := ConditionsOf(terminations, lengths);
      var ls := lengths.GetOr([]);
      && (ls == [] ==> c.avgGameLength == 0.0)
      && IsMeanOf(c.avgGameLength, Sum(ls, Identity) as real, |ls|)
  {
    var ls := lengths.GetOr([]);
    if ls != [] {
      AverageScales(Sum(ls, Identity) as real, |ls|);
    }
  }

  // ---------------------------------------------------------------------------
  // generate_projections
  // ---------------------------------------------------------------------------

  /** `expected_rating_gain`: a percentage gain, or a range of rating points. */
  datatype Gain = PercentGain(amount: real) | PointsGain(min: int, max: int)

  /** An entry of `target_improvements`. */
  datatype Improvement = Improvement(area: string, current: real, target: int, expectedGain: Gain)

  datatype RatingRange = RatingRange(min: int, max: int)

  /** The dict `generate_projections` returns. */
  datatype Projections = Projections(targetImprovements: seq<Improvement>, thirtyDay: RatingRange, ninetyDay: RatingRange)

  predicate BlackTarget(v: MetricsView) { v.blackWinRate.GetOr(0.0) < 45.0 }
  predicate TimeTarget(v: MetricsView) { v.timeLossPercentage.GetOr(0.0) > 30.0 }
  predicate OpeningTarget(v: MetricsView) { v.openingLossRate.GetOr(0.0) > 45.0 }

  /** The improvements the metrics call for, in check order. */
  function Improvements(v: MetricsView): (imps: seq<Improvement>)
    ensures |imps| <= 3
  {
    (if BlackTarget(v) then [Improvement("Black win rate", v.blackWinRate.GetOr(0.0), 45, PercentGain(3.5))] else [])
      + (if TimeTarget(v) then [Improvement("Time losses", v.timeLossPercentage.GetOr(0.0), 30, PointsGain(30, 40))] else [])
      + (if OpeningTarget(v) then [Improvement("Opening losses", v.openingLossRate.GetOr(0.0), 45, PointsGain(20, 25))] else [])
  }

  /** The lower end of a gain counted in rating points; a percentage counts for nothing. */
  function PointsMin(g: Gain): int { if g.PointsGain? then g.min else 0 }
  function PointsMax(g: Gain): int { if g.PointsGain? then g.max else 0 }
  function GainMin(i: Improvement): int { PointsMin(i.expectedGain) }
  function GainMax(i: Improvement): int { PointsMax(i.expectedGain) }

  /** `generate_projections`: Python's `//` floors, which for the halved gains is Dafny's `/`. */
  function ProjectionsSpec(v: MetricsView): Projections {
    var rating := RatingOf(v);
    var imps := Improvements(v);
    var lo := Sum(imps, GainMin);
    var hi := Sum(imps, GainMax);
    Projections(Take(imps, 3), RatingRange(rating + lo / 2, rating + hi / 2), RatingRange(rating + lo, rating + hi))
  }

  /**
   * The 90-day range adds up the point gains of the time and opening
   * targets, the black-rate target counting for nothing; the 30-day range
   * adds half of them, rounded down; every range lies between the current
   * rating and the 90-day bound.
   */
  lemma ProjectionsFacts(v: MetricsView)
    ensures var p := ProjectionsSpec(v);
      var rating := RatingOf(v);
      var lo := (if TimeTarget(v) then 30 else 0) + (if OpeningTarget(v) then 20 else 0);
      var hi := (if TimeTarget(v) then 40 else 0) + (if OpeningTarget(v) then 25 else 0);
      && p.targetImprovements == Improvements(v)
      && |p.targetImprovements| <= 3
      && p.ninetyDay == RatingRange(rating + lo, rating + hi)
      && p.thirtyDay == RatingRange(rating + lo / 2, rating + hi / 2)
      && rating <= p.thirtyDay.min <= p.ninetyDay.min
      && p.thirtyDay.min <= p.thirtyDay.max <= p.ninetyDay.max
      && p.ninetyDay.min <= p.ninetyDay.max
  {
    var imps := Improvements(v);
    GainSums(v);
  }

  /** The sums of the gains of the three possible targets. */
  lemma GainSums(v: MetricsView)
    ensures Sum(Improvements(v), GainMin) == (if TimeTarget(v) then 30 else 0) + (if OpeningTarget(v) then 20 else 0)
    ensures Sum(Improvements(v), GainMax) == (if TimeTarget(v) then 40 else 0) + (if OpeningTarget(v) then 25 else 0)
  {
    var a: seq<Improvement> := if BlackTarget(v) then [Improvement("Black win rate", v.blackWinRate.GetOr(0.0), 45, PercentGain(3.5))] else [];
    var b: seq<Improvement> := if TimeTarget(v) then [Improvement("Time losses", v.timeLossPercentage.GetOr(0.0), 30, PointsGain(30, 40))] else [];
    var c: seq<Improvement> := if OpeningTarget(v) then [Improvement("Opening losses", v.openingLossRate.GetOr(0.0), 45, PointsGain(20, 25))] else [];
    assert Improvements(v) == a + b + c;
    SumAppend(a + b, c, GainMin);
    SumAppend(a, b, GainMin);
    SumAppend(a + b, c, GainMax);
    SumAppend(a, b, GainMax);
  }

  /** Summing over a concatenation adds up. */
  lemma {:induction false} SumAppend<T>(a: seq<T>, b: seq<T>, f: T -> int)
    ensures Sum(a + b, f) == Sum(a, f) + Sum(b, f)
  {
    if b != [] {
      assert (a + b)[..|a + b| - 1] == a + b[..|b| - 1];
      SumAppend(a, b[..|b| - 1], f);
    } else {
      assert a + b == a;
    }
  }
}
