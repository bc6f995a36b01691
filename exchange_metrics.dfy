/**
 * `_calculate_piece_exchange_metrics` and `_calculate_tactical_metrics`
 * (analyzer/metrics_calculator.py): the trading frequencies, the material
 * imbalance table, and the winning and losing tactic tallies.
 */
module ExchangeMetrics {
  import opened Text
  import opened Tally
  import opened Grouping
  import opened GameParser
  import opened Metrics

  // ---------------------------------------------------------------------------
  // _calculate_piece_exchange_metrics
  // ---------------------------------------------------------------------------

  /** `trades_initiated` (always present in a fact sheet, so the default 0 is never used). */
  function TradesInitiated(g: ParsedGame): int { g.trades.tradesInitiated }

  /** The subject out-rates the opponent by more than 50 points. */
  predicate PlayingAhead(g: ParsedGame) { RatingDiff(g) < -50 }
  /** The opponent out-rates the subject by more than 50 points. */
  predicate PlayingBehind(g: ParsedGame) { RatingDiff(g) > 50 }
  predicate Traded(g: ParsedGame) { g.trades.tradesInitiated > 0 }
  predicate TradedAhead(g: ParsedGame) { PlayingAhead(g) && Traded(g) }
  predicate TradedBehind(g: ParsedGame) { PlayingBehind(g) && Traded(g) }
  predicate QueenTraded(g: ParsedGame) { g.trades.queenTrade }
  predicate WonQueenTrade(g: ParsedGame) { QueenTraded(g) && Won(g) }

  /** The keys of the `imbalances` table, in insertion order. */
  const ImbalanceKeys: seq<string> := ["queen_trades", "rook_vs_minor", "opposite_bishops", "knight_vs_bishop"]

  /** Fewest games an imbalance needs before it is judged good or bad. */
  const ImbalanceMinGames: nat := 3

  /** One row of the `imbalances` table after its win rate is filled in. */
  datatype Imbalance = Imbalance(key: string, games: nat, wins: nat, winRate: real)

  /** An entry of `good_imbalances` or `bad_imbalances`. */
  datatype ImbalanceLine = ImbalanceLine(name: string, games: nat, winRate: real)

  /** `name.replace('_', ' ').title()`. */
  function ImbalanceName(key: string): (name: string)
    ensures |name| == |key|
  {
    Titled(ReplaceChar(key, '_', ' '))
  }

  /** The display name of `queen_trades`. */
  lemma QueenTradesName(key: string)
    requires key == "queen_trades"
    ensures ImbalanceName(key) == "Queen Trades"
  {
    var spaced := ReplaceChar(key, '_', ' ');
    assert spaced == "queen trades";
    QueenTradesTitled(spaced);
  }

  /** `"queen trades".title()`. */
  lemma QueenTradesTitled(spaced: string)
    requires spaced == "queen trades"
    ensures Titled(spaced) == "Queen Trades"
  {
    var name := Titled(spaced);
    assert forall k :: 0 <= k < 12 ==> name[k] == "Queen Trades"[k];
  }

  /** A counter row with its win rate, 0 when it has no games. */
  function WithRate(key: string, c: WinTally): Imbalance {
    Imbalance(key, c.games, c.wins, Percent(c.wins, c.games))
  }

  /** The counter of the games with a queen trade. */
  function QueenTally(games: seq<ParsedGame>): WinTally {
    FoldWhere(games, QueenTraded, TallyZero, TallyStep)
  }

  /** The table: only the queen row is ever counted, the other three stay at zero. */
  function Imbalances(games: seq<ParsedGame>): seq<Imbalance> {
    [WithRate(ImbalanceKeys[0], QueenTally(games)), WithRate(ImbalanceKeys[1], TallyZero),
     WithRate(ImbalanceKeys[2], TallyZero), WithRate(ImbalanceKeys[3], TallyZero)]
  }

  /** `games >= 3` and `win_rate >= 60`. */
  predicate GoodImbalance(e: Imbalance) { e.games >= ImbalanceMinGames && e.winRate >= 60.0 }

  /** `games >= 3`, not good, and `win_rate <= 40` (the `elif` branch). */
  predicate BadImbalance(e: Imbalance) { e.games >= ImbalanceMinGames && !(e.winRate >= 60.0) && e.winRate <= 40.0 }

  function LineOfImbalance(e: Imbalance): ImbalanceLine {
    ImbalanceLine(ImbalanceName(e.key), e.games, e.winRate)
  }

  datatype PieceExchangeMetrics = PieceExchangeMetrics(
    avgTradesPerGame: real,
    tradeFrequencyWhenAhead: real,
    tradeFrequencyWhenBehind: real,
    goodImbalances: seq<ImbalanceLine>,
    badImbalances: seq<ImbalanceLine>)

  /** The value `_calculate_piece_exchange_metrics` returns (without its fixed `typical_*` numbers). */
  function PieceExchangeSpec(games: seq<ParsedGame>): PieceExchangeMetrics {
    PieceExchangeMetrics(
      Average(Sum(games, TradesInitiated) as real, |games|),
      Percent(Count(games, TradedAhead), Count(games, PlayingAhead)),
      Percent(Count(games, TradedBehind), Count(games, PlayingBehind)),
      JudgedLines(games, GoodImbalance), JudgedLines(games, BadImbalance))
  }

  /** The entries for the rows of the table that `judged` selects, in table order. */
  function JudgedLines(games: seq<ParsedGame>, judged: Imbalance -> bool): seq<ImbalanceLine> {
    MapSeq(Filter(Imbalances(games), judged), LineOfImbalance)
  }

  /** The queen-trade loop: the games with a queen trade, and the wins among them. */
  method CountQueenTrades(games: seq<ParsedGame>) returns (queen: WinTally)
    ensures queen == QueenTally(games)
  {
    queen := TallyZero;
    for i := 0 to |games|
      invariant queen == FoldWhere(games[..i], QueenTraded, TallyZero, TallyStep)
    {
      assert games[..i + 1][..i] == games[..i];
      if QueenTraded(games[i]) {
        queen := TallyStep(queen, games[i]);
      }
    }
    assert games[..|games|] == games;
  }

  /** The classification loop: each row with three games or more is good, or else bad, or neither. */
  method ClassifyImbalances(table: seq<Imbalance>) returns (good: seq<ImbalanceLine>, bad: seq<ImbalanceLine>)
    ensures good == MapSeq(Filter(table, GoodImbalance), LineOfImbalance)
    ensures bad == MapSeq(Filter(table, BadImbalance), LineOfImbalance)
  {
    good, bad := [], [];
    for i := 0 to |table|
      invariant good == MapSeq(Filter(table[..i], GoodImbalance), LineOfImbalance)
      invariant bad == MapSeq(Filter(table[..i], BadImbalance), LineOfImbalance)
    {
      PrefixSnoc(table, i);
      FilterSnoc(table[..i], table[i], GoodImbalance);
      FilterSnoc(table[..i], table[i], BadImbalance);
      var e := table[i];
      if e.games >= ImbalanceMinGames {
        var line := LineOfImbalance(e);
        if e.winRate >= 60.0 {
          MapSeqSnoc(Filter(table[..i], GoodImbalance), e, LineOfImbalance);
          good := good + [line];
        } else if e.winRate <= 40.0 {
          MapSeqSnoc(Filter(table[..i], BadImbalance), e, LineOfImbalance);
          bad := bad + [line];
        }
      }
    }
    assert table[..|table|] == table;
  }

  /** The queen-trade loop, then the classification loop over the four rows. */
  method PieceExchangeMetricsOf(games: seq<ParsedGame>) returns (m: PieceExchangeMetrics)
    ensures m == PieceExchangeSpec(games)
  {
    var queen := CountQueenTrades(games);
    var table := [WithRate(ImbalanceKeys[0], queen), WithRate(ImbalanceKeys[1], TallyZero),
                  WithRate(ImbalanceKeys[2], TallyZero), WithRate(ImbalanceKeys[3], TallyZero)];
    var good, bad := ClassifyImbalances(table);
    m := PieceExchangeMetrics(
      Average(Sum(games, TradesInitiated) as real, |games|),
      Percent(Count(games, TradedAhead), Count(games, PlayingAhead)),
      Percent(Count(games, TradedBehind), Count(games, PlayingBehind)),
      good, bad);
  }

  /** The queen counter holds the number of games with a queen trade and the wins among them. */
  lemma {:induction false} QueenTallyCounts(games: seq<ParsedGame>)
    ensures QueenTally(games) == WinTally(Count(games, QueenTraded), Count(games, WonQueenTrade))
  {
    if games != [] {
      QueenTallyCounts(games[..|games| - 1]);
    }
  }

  /** Only the queen row can reach three games, so it is the only row that can be judged. */
  lemma OnlyQueenRowJudged(games: seq<ParsedGame>, e: Imbalance)
    requires e in Imbalances(games) && e.games >= ImbalanceMinGames
    ensures e == Imbalances(games)[0] && e.key == "queen_trades"
  {
  }

  /** Filtering four rows of which only the first can pass keeps at most that one. */
  lemma FirstRowOnly(table: seq<Imbalance>, p: Imbalance -> bool)
    requires |table| == 4 && !p(table[1]) && !p(table[2]) && !p(table[3])
    ensures Filter(table, p) == if p(table[0]) then [table[0]] else []
  {
    assert table[..3][..2] == table[..2];
    assert table[..2][..1] == table[..1];
    assert table[..1][..0] == [];
    assert Filter(table[..1], p) == if p(table[0]) then [table[0]] else [];
    assert Filter(table[..2], p) == Filter(table[..1], p);
    assert Filter(table[..3], p) == Filter(table[..2], p);
  }

  /** The trade frequencies are percentages, 0 when there is no game ahead or behind. */
  lemma TradeFrequencyFacts(games: seq<ParsedGame>)
    ensures var m := PieceExchangeSpec(games);
      && 0.0 <= m.tradeFrequencyWhenAhead <= 100.0
      && 0.0 <= m.tradeFrequencyWhenBehind <= 100.0
      && (Count(games, PlayingAhead) == 0 ==> m.tradeFrequencyWhenAhead == 0.0)
      && (Count(games, PlayingBehind) == 0 ==> m.tradeFrequencyWhenBehind == 0.0)
  {
    CountMono(games, TradedAhead, PlayingAhead);
    CountMono(games, TradedBehind, PlayingBehind);
  }

  /** Each listed imbalance is the queen row, as "Queen Trades", judged by its rate. */
  predicate JudgedQueenRow(lines: seq<ImbalanceLine>, good: bool) {
    forall k :: 0 <= k < |lines| ==>
      && lines[k].name == "Queen Trades" && lines[k].games >= ImbalanceMinGames
      && (if good then lines[k].winRate >= 60.0 else lines[k].winRate <= 40.0)
  }

  /**
   * The good and bad lists hold at most the queen row between them, as
   * "Queen Trades", each with the rate that put it there.
   */
  lemma ImbalanceListsFacts(games: seq<ParsedGame>)
    ensures |PieceExchangeSpec(games).goodImbalances| + |PieceExchangeSpec(games).badImbalances| <= 1
    ensures JudgedQueenRow(PieceExchangeSpec(games).goodImbalances, true)
    ensures JudgedQueenRow(PieceExchangeSpec(games).badImbalances, false)
  {
    QueenRowJudged(games);
  }

  /** The judged lists of the table: at most the queen row between them, with the rate that put it there. */
  lemma QueenRowJudged(games: seq<ParsedGame>)
    ensures |JudgedLines(games, GoodImbalance)| + |JudgedLines(games, BadImbalance)| <= 1
    ensures JudgedQueenRow(JudgedLines(games, GoodImbalance), true)
    ensures JudgedQueenRow(JudgedLines(games, BadImbalance), false)
  {
    var table := Imbalances(games);
    QueenTradesName(ImbalanceKeys[0]);
    QueenRowOnly(table, GoodImbalance, true);
    QueenRowOnly(table, BadImbalance, false);
  }

  /** Judging four rows of which only the queen row can pass lists at most that row, with the rate that passed. */
  lemma QueenRowOnly(table: seq<Imbalance>, p: Imbalance -> bool, good: bool)
    requires |table| == 4 && !p(table[1]) && !p(table[2]) && !p(table[3])
    requires ImbalanceName(table[0].key) == "Queen Trades"
    requires p(table[0]) ==> table[0].games >= ImbalanceMinGames && (if good then table[0].winRate >= 60.0 else table[0].winRate <= 40.0)
    ensures |MapSeq(Filter(table, p), LineOfImbalance)| == if p(table[0]) then 1 else 0
    ensures JudgedQueenRow(MapSeq(Filter(table, p), LineOfImbalance), good)
  {
    FirstRowListed(table, p);
  }

  /** Listing four rows of which only the first can pass lists at most that one. */
  lemma FirstRowListed(table: seq<Imbalance>, p: Imbalance -> bool)
    requires |table| == 4 && !p(table[1]) && !p(table[2]) && !p(table[3])
    ensures MapSeq(Filter(table, p), LineOfImbalance) == if p(table[0]) then [LineOfImbalance(table[0])] else []
  {
    FirstRowOnly(table, p);
  }

  /** The average number of trades, scaled back by the number of games, is the total. */
  lemma AvgTradesScales(games: seq<ParsedGame>)
    requires games != []
    ensures IsMeanOf(PieceExchangeSpec(games).avgTradesPerGame, Sum(games, TradesInitiated) as real, |games|)
  {
    AverageScales(Sum(games, TradesInitiated) as real, |games|);
  }

  // ---------------------------------------------------------------------------
  // _calculate_tactical_metrics
  // ---------------------------------------------------------------------------

  const BackRankMates: string := "Back Rank Mates"
  const ForkTactics: string := "Fork Tactics"
  const DiscoveredAttacks: string := "Discovered Attacks"
  const HangingPieces: string := "Hanging Pieces"
  const TimePressureBlunders: string := "Time Pressure Blunders"
  const MissedDefensiveTactics: string := "Missed Defensive Tactics"

  /** Fewest occurrences a tactic needs to be listed. */
  const MinPatternCount: nat := 2
  /** A loss in fewer moves than this counts as a blunder. */
  const BlunderMoves: nat := 30
  /** `final_time` below this many seconds marks a time-pressure loss. */
  const LowFinalTime: real := 30.0
  /** The `final_time` assumed when a fact sheet has none. */
  const NoFinalTime: real := 100.0
  /** The fixed `tactical_loss_rate` the insight rules read. */
  const TacticalLossRate: real := 40.0

  /** `moves[-3:]`. */
  function LastThree(moves: seq<string>): (r: seq<string>)
    ensures |r| == if |moves| < 3 then |moves| else 3
    ensures forall k :: 0 <= k < |r| ==> r[k] == moves[|moves| - |r| + k]
  {
    if |moves| <= 3 then moves else moves[|moves| - 3..]
  }

  /** Some move of `ms` contains an `x`. */
  predicate HasCaptureMark(ms: seq<string>) {
    exists k :: 0 <= k < |ms| && 'x' in ms[k]
  }

  /** `final_time`, or 100 when the fact sheet has no time data. */
  function FinalTimeOr(g: ParsedGame): real {
    if g.time.Some? then g.time.value.finalTime else NoFinalTime
  }

  /** A resignation with a capture among the last three moves. */
  predicate HangingPieceLoss(g: ParsedGame) { g.termination == ByResignation && HasCaptureMark(LastThree(g.moves)) }
  /** A loss on time, or one that ended with under 30 seconds left. */
  predicate TimePressureLoss(g: ParsedGame) { g.termination == OnTime || FinalTimeOr(g) < LowFinalTime }
  predicate MatedLoss(g: ParsedGame) { g.termination == ByCheckmate }
  /** A loss in fewer than 30 moves. */
  predicate IsBlunder(g: ParsedGame) { Lost(g) && g.totalMoves < BlunderMoves }

  /** `[name]` when `c` holds. */
  function When(c: bool, name: string): seq<string> {
    if c then [name] else []
  }

  /** The winning tactics a game adds, in the order the rules test them. */
  function WinEvents(g: ParsedGame): seq<string> {
    if Won(g) then
      When(g.tactics.backRank, BackRankMates) + When(g.tactics.forks, ForkTactics) + When(g.tactics.discovered, DiscoveredAttacks)
    else []
  }

  /** The losing patterns a game adds, in the order the rules test them. */
  function LossEvents(g: ParsedGame): seq<string> {
    if Lost(g) then
      When(HangingPieceLoss(g), HangingPieces) + When(TimePressureLoss(g), TimePressureBlunders) + When(MatedLoss(g), MissedDefensiveTactics)
    else []
  }

  /** All events of the games, game after game. */
  function Events(games: seq<ParsedGame>, f: ParsedGame -> seq<string>): seq<string> {
    if games == [] then [] else Events(games[..|games| - 1], f) + f(games[|games| - 1])
  }

  /** The pattern name itself, the key the counters are indexed by. */
  function Name(s: string): string { s }

  /** `counter[name] += 1` when `c` holds. */
  function TickIf(h: seq<(string, nat)>, c: bool, name: string): seq<(string, nat)> {
    if c then Tick(h, name) else h
  }

  /** The winning-pattern counter after one more game. */
  function WinTicks(h: seq<(string, nat)>, g: ParsedGame): seq<(string, nat)> {
    if Won(g) then
      TickIf(TickIf(TickIf(h, g.tactics.backRank, BackRankMates), g.tactics.forks, ForkTactics), g.tactics.discovered, DiscoveredAttacks)
    else h
  }

  /** The losing-pattern counter after one more game. */
  function LossTicks(h: seq<(string, nat)>, g: ParsedGame): seq<(string, nat)> {
    if Lost(g) then
      TickIf(TickIf(TickIf(h, HangingPieceLoss(g), HangingPieces), TimePressureLoss(g), TimePressureBlunders), MatedLoss(g), MissedDefensiveTactics)
    else h
  }

  /** Ticking every name of `ks` in turn. */
  function TickAll(h: seq<(string, nat)>, ks: seq<string>): seq<(string, nat)> {
    if ks == [] then h else Tick(TickAll(h, ks[..|ks| - 1]), ks[|ks| - 1])
  }

  /** Ticking two lists in turn is ticking their concatenation. */
  lemma {:induction false} TickAllAppend(h: seq<(string, nat)>, a: seq<string>, b: seq<string>)
    ensures TickAll(h, a + b) == TickAll(TickAll(h, a), b)
  {
    if b == [] {
      assert a + b == a;
    } else {
      TickAllAppend(h, a, b[..|b| - 1]);
      assert (a + b)[..|a + b| - 1] == a + b[..|b| - 1];
    }
  }

  /** Ticking a counted list further counts the longer list. */
  lemma {:induction false} CountedAppend(s: seq<string>, t: seq<string>)
    ensures Counted(s + t, Name) == TickAll(Counted(s, Name), t)
  {
    if t == [] {
      assert s + t == s;
    } else {
      CountedAppend(s, t[..|t| - 1]);
      assert (s + t)[..|s + t| - 1] == s + t[..|t| - 1];
    }
  }

  /** Ticking a `When` list is ticking under its condition. */
  lemma TickAllWhen(h: seq<(string, nat)>, c: bool, name: string)
    ensures TickAll(h, When(c, name)) == TickIf(h, c, name)
  {
    if c {
      assert When(c, name)[..0] == [];
    }
  }

  /** Ticking three conditional names in turn. */
  lemma TickThree(h: seq<(string, nat)>, c1: bool, n1: string, c2: bool, n2: string, c3: bool, n3: string)
    ensures TickAll(h, When(c1, n1) + When(c2, n2) + When(c3, n3)) == TickIf(TickIf(TickIf(h, c1, n1), c2, n2), c3, n3)
  {
    TickAllAppend(h, When(c1, n1) + When(c2, n2), When(c3, n3));
    TickAllAppend(h, When(c1, n1), When(c2, n2));
    TickAllWhen(h, c1, n1);
    TickAllWhen(TickIf(h, c1, n1), c2, n2);
    TickAllWhen(TickIf(TickIf(h, c1, n1), c2, n2), c3, n3);
  }

  /** A counter fold whose step ticks a game's events counts all the events, in first-seen order. */
  lemma {:induction false} TicksCountEvents(games: seq<ParsedGame>, f: ParsedGame -> seq<string>,
                                            step: (seq<(string, nat)>, ParsedGame) -> seq<(string, nat)>)
    requires forall h, g :: step(h, g) == TickAll(h, f(g))
    ensures Fold(games, [], step) == Counted(Events(games, f), Name)
  {
    if games != [] {
      var init := games[..|games| - 1];
      TicksCountEvents(init, f, step);
      CountedAppend(Events(init, f), f(games[|games| - 1]));
    }
  }

  /** Each game's winning and losing ticks are the ticks of its events. */
  lemma TicksAreEvents()
    ensures forall h, g :: WinTicks(h, g) == TickAll(h, WinEvents(g))
    ensures forall h, g :: LossTicks(h, g) == TickAll(h, LossEvents(g))
  {
    forall h, g
      ensures WinTicks(h, g) == TickAll(h, WinEvents(g))
      ensures LossTicks(h, g) == TickAll(h, LossEvents(g))
    {
      TickThree(h, g.tactics.backRank, BackRankMates, g.tactics.forks, ForkTactics, g.tactics.discovered, DiscoveredAttacks);
      TickThree(h, HangingPieceLoss(g), HangingPieces, TimePressureLoss(g), TimePressureBlunders, MatedLoss(g), MissedDefensiveTactics);
    }
  }

  /** An entry `{'name', 'count'}` of `winning_patterns` or `losing_patterns`. */
  datatype PatternLine = PatternLine(name: string, count: nat)

  predicate Frequent(e: (string, nat)) { e.1 >= MinPatternCount }

  function LineOfEntry(e: (string, nat)): PatternLine { PatternLine(e.0, e.1) }

  /** The sort key `count`, descending; `reverse=True` keeps the sort stable. */
  predicate MoreFrequent(a: PatternLine, b: PatternLine) { a.count > b.count }

  /** The entries with at least two occurrences, most frequent first. */
  function PatternList(h: seq<(string, nat)>): seq<PatternLine> {
    SortBy(MapSeq(Filter(h, Frequent), LineOfEntry), MoreFrequent)
  }

  datatype TacticalMetrics = TacticalMetrics(
    winningPatterns: seq<PatternLine>,
    losingPatterns: seq<PatternLine>,
    blunderRate: real,
    tacticalLossRate: real)

  /** The value `_calculate_tactical_metrics` returns (without its fixed blunder-trend numbers). */
  function TacticalSpec(games: seq<ParsedGame>): TacticalMetrics {
    TacticalMetrics(
      PatternList(Fold(games, [], WinTicks)), PatternList(Fold(games, [], LossTicks)),
      BlunderRate(games), TacticalLossRate)
  }

  /** `total_blunders / len(games)`, 0 for no games. */
  function BlunderRate(games: seq<ParsedGame>): real {
    Average(Count(games, IsBlunder) as real, |games|)
  }

  /** The per-game tally loop, then the two lists and the blunder rate. */
  method TacticalMetricsOf(games: seq<ParsedGame>) returns (m: TacticalMetrics)
    ensures m == TacticalSpec(games)
  {
    var winning: seq<(string, nat)> := [];
    var losing: seq<(string, nat)> := [];
    var blunders := 0;
    for i := 0 to |games|
      invariant winning == Fold(games[..i], [], WinTicks)
      invariant losing == Fold(games[..i], [], LossTicks)
      invariant blunders == Count(games[..i], IsBlunder)
    {
      PrefixSnoc(games, i);
      FoldSnoc(games[..i], games[i], [], WinTicks);
      FoldSnoc(games[..i], games[i], [], LossTicks);
      CountSnoc(games[..i], games[i], IsBlunder);
      winning, losing, blunders := TallyTactics(games[i], winning, losing, blunders);
    }
    assert games[..|games|] == games;
    m := TacticalMetrics(PatternList(winning), PatternList(losing), Average(blunders as real, |games|), TacticalLossRate);
  }

  /** One pass of the tactics loop: a win ticks its tactics, a loss its losing patterns and perhaps the blunder count. */
  method TallyTactics(g: ParsedGame, winning: seq<(string, nat)>, losing: seq<(string, nat)>, blunders: nat)
    returns (winning': seq<(string, nat)>, losing': seq<(string, nat)>, blunders': nat)
    ensures winning' == WinTicks(winning, g) && losing' == LossTicks(losing, g)
    ensures blunders' == blunders + (if IsBlunder(g) then 1 else 0)
  {
    winning', losing', blunders' := winning, losing, blunders;
    if Won(g) {
      if g.tactics.backRank {
        winning' := Tick(winning', BackRankMates);
      }
      if g.tactics.forks {
        winning' := Tick(winning', ForkTactics);
      }
      if g.tactics.discovered {
        winning' := Tick(winning', DiscoveredAttacks);
      }
    } else if Lost(g) {
      if g.termination == ByResignation && HasCaptureMark(LastThree(g.moves)) {
        losing' := Tick(losing', HangingPieces);
      }
      if g.termination == OnTime || FinalTimeOr(g) < LowFinalTime {
        losing' := Tick(losing', TimePressureBlunders);
      }
      if g.termination == ByCheckmate {
        losing' := Tick(losing', MissedDefensiveTactics);
      }
      if g.totalMoves < BlunderMoves {
        blunders' := blunders' + 1;
      }
    }
  }

  /** Every event `f` produces satisfies `ok`, so every event of a list of games does. */
  lemma {:induction false} EventsSatisfy(games: seq<ParsedGame>, f: ParsedGame -> seq<string>, ok: string -> bool)
    requires forall g, k :: 0 <= k < |f(g)| ==> ok(f(g)[k])
    ensures forall k :: 0 <= k < |Events(games, f)| ==> ok(Events(games, f)[k])
  {
    if games != [] {
      EventsSatisfy(games[..|games| - 1], f, ok);
    }
  }

  predicate WinningName(n: string) { n == BackRankMates || n == ForkTactics || n == DiscoveredAttacks }
  predicate LosingName(n: string) { n == HangingPieces || n == TimePressureBlunders || n == MissedDefensiveTactics }

  /** The pattern `line.name` occurs among `events`, exactly `line.count` times, and at least twice. */
  predicate OccursAsListed(events: seq<string>, line: PatternLine) {
    && line.count >= MinPatternCount
    && line.count == |Select(events, Name, line.name)|
    && HasKey(events, Name, line.name)
  }

  /** A line comes from an entry of the counter with a count of at least two. */
  lemma FrequentLines(h: seq<(string, nat)>, line: PatternLine)
    ensures line in MapSeq(Filter(h, Frequent), LineOfEntry) <==> (line.name, line.count) in h && line.count >= MinPatternCount
  {
    var f := Filter(h, Frequent);
    if line in MapSeq(f, LineOfEntry) {
      var k :| 0 <= k < |f| && LineOfEntry(f[k]) == line;
      assert f[k] in h;
    }
    if (line.name, line.count) in h && line.count >= MinPatternCount {
      var j :| 0 <= j < |h| && h[j] == (line.name, line.count);
      FilterKeeps(h, Frequent, j);
      var k :| 0 <= k < |f| && f[k] == h[j];
      assert MapSeq(f, LineOfEntry)[k] == line;
    }
  }

  /** The histogram holds `(name, count)` exactly when `name` occurs, `count` times. */
  lemma HistogramEntry(events: seq<string>, name: string, count: nat)
    ensures (name, count) in Histogram(events, Name) <==> HasKey(events, Name, name) && count == |Select(events, Name, name)|
  {
    var h := Histogram(events, Name);
    var ks := Keys(events, Name);
    KeysExactly(events, Name, name);
    if (name, count) in h {
      var j :| 0 <= j < |h| && h[j] == (name, count);
      assert ks[j] == name;
    }
    if HasKey(events, Name, name) && count == |Select(events, Name, name)| {
      var j :| 0 <= j < |ks| && ks[j] == name;
      assert h[j] == (name, count);
    }
  }

  /** A line is listed exactly when its pattern occurs at least twice among the events, with that count. */
  lemma PatternListExactly(events: seq<string>, line: PatternLine)
    ensures line in PatternList(Counted(events, Name)) <==> OccursAsListed(events, line)
  {
    CountedIsHistogram(events, Name);
    var h := Histogram(events, Name);
    var lines := MapSeq(Filter(h, Frequent), LineOfEntry);
    assert line in PatternList(h) <==> line in lines by {
      assert multiset(PatternList(h)) == multiset(lines);
      assert line in PatternList(h) <==> line in multiset(PatternList(h));
    }
    FrequentLines(h, line);
    HistogramEntry(events, line.name, line.count);
  }

  /** An element that passes the filter is kept. */
  lemma {:induction false} FilterKeeps<T>(s: seq<T>, p: T -> bool, j: nat)
    requires j < |s| && p(s[j])
    ensures exists k :: 0 <= k < |Filter(s, p)| && Filter(s, p)[k] == s[j]
  {
    var init := s[..|s| - 1];
    FilterSnoc(init, s[|s| - 1], p);
    assert s == init + [s[|s| - 1]];
    if j < |s| - 1 {
      FilterKeeps(init, p, j);
      var k :| 0 <= k < |Filter(init, p)| && Filter(init, p)[k] == init[j];
      assert Filter(s, p)[k] == s[j];
    } else {
      assert Filter(s, p)[|Filter(init, p)|] == s[j];
    }
  }

  /** Both lists are ordered by descending count. */
  lemma PatternListsSorted(games: seq<ParsedGame>)
    ensures SortedBy(TacticalSpec(games).winningPatterns, MoreFrequent)
    ensures SortedBy(TacticalSpec(games).losingPatterns, MoreFrequent)
  {
    SortBySorted(MapSeq(Filter(Fold(games, [], WinTicks), Frequent), LineOfEntry), MoreFrequent);
    SortBySorted(MapSeq(Filter(Fold(games, [], LossTicks), Frequent), LineOfEntry), MoreFrequent);
  }

  /** The winning counter counts the winning events and the losing counter the losing events. */
  lemma TicksCountAllEvents(games: seq<ParsedGame>)
    ensures Fold(games, [], WinTicks) == Counted(Events(games, WinEvents), Name)
    ensures Fold(games, [], LossTicks) == Counted(Events(games, LossEvents), Name)
  {
    TicksAreEvents();
    TicksCountEvents(games, WinEvents, WinTicks);
    TicksCountEvents(games, LossEvents, LossTicks);
  }

  /** A name that occurs among the events of `games` is one that `f` produces, so it satisfies `ok`. */
  lemma OccurringNameSatisfies(games: seq<ParsedGame>, f: ParsedGame -> seq<string>, ok: string -> bool, name: string)
    requires forall g, k :: 0 <= k < |f(g)| ==> ok(f(g)[k])
    requires HasKey(Events(games, f), Name, name)
    ensures ok(name)
  {
    EventsSatisfy(games, f, ok);
  }

  /** A `When` list holds only its name. */
  lemma WhenNamed(c: bool, name: string, k: nat)
    requires k < |When(c, name)|
    ensures When(c, name)[k] == name
  {
  }

  /** Every winning event is one of the three winning tactics. */
  lemma WinEventsNamed()
    ensures forall g, k :: 0 <= k < |WinEvents(g)| ==> WinningName(WinEvents(g)[k])
  {
    forall g, k | 0 <= k < |WinEvents(g)|
      ensures WinningName(WinEvents(g)[k])
    {
      var a, b, c := When(g.tactics.backRank, BackRankMates), When(g.tactics.forks, ForkTactics), When(g.tactics.discovered, DiscoveredAttacks);
      assert WinEvents(g) == a + b + c;
      if k < |a| {
        WhenNamed(g.tactics.backRank, BackRankMates, k);
      } else if k < |a| + |b| {
        WhenNamed(g.tactics.forks, ForkTactics, k - |a|);
      } else {
        WhenNamed(g.tactics.discovered, DiscoveredAttacks, k - |a| - |b|);
      }
    }
  }

  /** Every losing event is one of the three losing patterns. */
  lemma LossEventsNamed()
    ensures forall g, k :: 0 <= k < |LossEvents(g)| ==> LosingName(LossEvents(g)[k])
  {
    forall g, k | 0 <= k < |LossEvents(g)|
      ensures LosingName(LossEvents(g)[k])
    {
      var a, b, c := When(HangingPieceLoss(g), HangingPieces), When(TimePressureLoss(g), TimePressureBlunders), When(MatedLoss(g), MissedDefensiveTactics);
      assert LossEvents(g) == a + b + c;
      if k < |a| {
        WhenNamed(HangingPieceLoss(g), HangingPieces, k);
      } else if k < |a| + |b| {
        WhenNamed(TimePressureLoss(g), TimePressureBlunders, k - |a|);
      } else {
        WhenNamed(MatedLoss(g), MissedDefensiveTactics, k - |a| - |b|);
      }
    }
  }

  /**
   * A winning line is listed exactly when its tactic occurs at least twice
   * among the winning events, and then with that count; its name is one of
   * the three winning tactics.
   */
  lemma WinningPatternsFacts(games: seq<ParsedGame>, line: PatternLine)
    ensures line in TacticalSpec(games).winningPatterns <==> OccursAsListed(Events(games, WinEvents), line)
    ensures line in TacticalSpec(games).winningPatterns ==> WinningName(line.name)
  {
    var events := Events(games, WinEvents);
    TicksCountAllEvents(games);
    assert TacticalSpec(games).winningPatterns == PatternList(Counted(events, Name));
    PatternListExactly(events, line);
    if OccursAsListed(events, line) {
      WinEventsNamed();
      OccurringNameSatisfies(games, WinEvents, WinningName, line.name);
    }
  }

  /**
   * A losing line is listed exactly when its pattern occurs at least twice
   * among the losing events, and then with that count; its name is one of
   * the three losing patterns.
   */
  lemma LosingPatternsFacts(games: seq<ParsedGame>, line: PatternLine)
    ensures line in TacticalSpec(games).losingPatterns <==> OccursAsListed(Events(games, LossEvents), line)
    ensures line in TacticalSpec(games).losingPatterns ==> LosingName(line.name)
  {
    var events := Events(games, LossEvents);
    TicksCountAllEvents(games);
    assert TacticalSpec(games).losingPatterns == PatternList(Counted(events, Name));
    PatternListExactly(events, line);
    if OccursAsListed(events, line) {
      LossEventsNamed();
      OccurringNameSatisfies(games, LossEvents, LosingName, line.name);
    }
  }

  /** A count no larger than `n`, averaged over `n`, lies between 0 and 1. */
  lemma ShareBounded(c: nat, n: nat)
    requires c <= n
    ensures 0.0 <= Average(c as real, n) <= 1.0
  {
    if n > 0 {
      var r := Average(c as real, n);
      AverageScales(c as real, n);
      ScaleBack(r, 1.0, n as real);
      ScaleBack(0.0, r, n as real);
    }
  }

  /** The blunder rate is the share of games lost in under 30 moves: between 0 and 1, and scaled back by the number of games it is that count. */
  lemma BlunderRateBounded(games: seq<ParsedGame>)
    ensures 0.0 <= TacticalSpec(games).blunderRate <= 1.0
    ensures games != [] ==> IsMeanOf(TacticalSpec(games).blunderRate, Count(games, IsBlunder) as real, |games|)
  {
    assert TacticalSpec(games).blunderRate == BlunderRate(games);
    CountMono(games, IsBlunder, AnyGame);
    CountEverything(games, AnyGame);
    ShareBounded(Count(games, IsBlunder), |games|);
    if games != [] {
      AverageScales(Count(games, IsBlunder) as real, |games|);
    }
  }
}
