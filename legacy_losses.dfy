/**
 * The loss and endgame reports of the older `ChessAnalyzer` in `main.py`
 * (`analyze_mistakes`, `analyze_endgames`) as specification functions over
 * the list of analyses, with the facts the code promises about them.
 */
module LegacyLosses {
  import opened Wrappers
  import opened Text
  import opened Tally
  import opened Grouping
  import opened GameParser
  import opened LegacyGame
  import opened LegacyStats

  /** `QUICK_LOSS_MOVES`. */
  const QuickLossMoves: nat := 20
  /** A loss shorter than this with many captures hints at a blunder. */
  const BlunderMoves: nat := 30
  /** More captures than this in such a loss hint at a blunder. */
  const BlunderCaptures: nat := 3
  /** A rating difference below this is a game against a weaker opponent. */
  const AheadMargin: int := -50

  // ---------------------------------------------------------------------------
  // analyze_mistakes
  // ---------------------------------------------------------------------------

  /** An entry of `quick_losses`. */
  datatype QuickLoss = QuickLoss(moves: nat, opening: string, phase: Phase)

  /** An entry of `time_losses`. */
  datatype TimeLoss = TimeLoss(moves: nat, timeControl: string, finalTime: real)

  predicate IsQuickLoss(a: Analysis) { Lost(a) && a.totalMoves < QuickLossMoves }
  predicate IsTimeLoss(a: Analysis) { Lost(a) && a.termination == OnTime }
  predicate IsResignedLoss(a: Analysis) { Lost(a) && a.termination == ByResignation }
  predicate IsBlunderLoss(a: Analysis) { Lost(a) && a.totalMoves < BlunderMoves && a.capturesMade > BlunderCaptures }

  function QuickLossOf(a: Analysis): QuickLoss {
    QuickLoss(a.totalMoves, a.opening, a.endPhase)
  }

  /** `final_time` defaults to 0 when the subject had no clock reading. */
  function TimeLossOf(a: Analysis): TimeLoss {
    TimeLoss(a.totalMoves, a.timeControl, a.clock.finalTime.GetOr(0.0))
  }

  function TimeLossControl(t: TimeLoss): string { t.timeControl }

  /** `d[key] += 1` on a `defaultdict(int)`, as a fold step. */
  function PlusOne(n: nat, a: Analysis): nat { n + 1 }

  /** Counting steps over a list give its length. */
  lemma {:induction false} PlusOneCounts(s: seq<Analysis>)
    ensures Fold(s, 0, PlusOne) == |s|
  {
    if s != [] {
      PlusOneCounts(s[..|s| - 1]);
    }
  }

  /** `resignation_patterns`: the resigned losses counted per end phase. */
  function ResignationTable(gs: seq<Analysis>): map<Phase, nat> {
    Groups(Filter(gs, IsResignedLoss), EndPhaseOf, 0, PlusOne)
  }

  /** The dict `analyze_mistakes` returns; `worst_time_control` is absent without time losses. */
  datatype MistakeAnalysis = MistakeAnalysis(
    quickLossRate: real,
    timeLossRate: real,
    quickLosses: seq<QuickLoss>,
    resignationByPhase: map<Phase, nat>,
    potentialBlunderGames: nat,
    worstTimeControl: Option<string>)

  /** The quick losses, in game order. */
  function QuickLosses(gs: seq<Analysis>): seq<QuickLoss> {
    MapSeq(Filter(gs, IsQuickLoss), QuickLossOf)
  }

  /** The losses on time, in game order. */
  function TimeLosses(gs: seq<Analysis>): seq<TimeLoss> {
    MapSeq(Filter(gs, IsTimeLoss), TimeLossOf)
  }

  /** The value `analyze_mistakes` returns. */
  function MistakeSpec(gs: seq<Analysis>): MistakeAnalysis {
    var quick := QuickLosses(gs);
    var times := TimeLosses(gs);
    var losses := Count(gs, Lost);
    MistakeAnalysis(
      Percent(|quick|, losses), Percent(|times|, losses), Take(quick, 5),
      ResignationTable(gs), Count(gs, IsBlunderLoss),
      MostCommon(Histogram(times, TimeLossControl)))
  }

  /** One more game extends each mistake list and count by that game, when it is such a loss. */
  lemma MistakeSnoc(s: seq<Analysis>, x: Analysis)
    ensures QuickLosses(s + [x]) == QuickLosses(s) + (if IsQuickLoss(x) then [QuickLossOf(x)] else [])
    ensures TimeLosses(s + [x]) == TimeLosses(s) + (if IsTimeLoss(x) then [TimeLossOf(x)] else [])
    ensures Count(s + [x], IsBlunderLoss) == Count(s, IsBlunderLoss) + (if IsBlunderLoss(x) then 1 else 0)
  {
    assert (s + [x])[..|s|] == s;
    FilterSnoc(s, x, IsQuickLoss);
    FilterSnoc(s, x, IsTimeLoss);
    MapSeqSnoc(Filter(s, IsQuickLoss), x, QuickLossOf);
    MapSeqSnoc(Filter(s, IsTimeLoss), x, TimeLossOf);
  }

  /** The resignation table counts, for each end phase, the losses by resignation that ended in it. */
  lemma ResignationTableCounts(gs: seq<Analysis>, p: Phase)
    ensures var resigned := Filter(gs, IsResignedLoss);
      && (p in ResignationTable(gs) <==> |Select(resigned, EndPhaseOf, p)| > 0)
      && (p in ResignationTable(gs) ==> ResignationTable(gs)[p] == |Select(resigned, EndPhaseOf, p)|)
  {
    var resigned := Filter(gs, IsResignedLoss);
    GroupsAt(resigned, EndPhaseOf, 0, PlusOne, p);
    KeysExactly(resigned, EndPhaseOf, p);
    PlusOneCounts(Select(resigned, EndPhaseOf, p));
    if HasKey(resigned, EndPhaseOf, p) {
      var j :| 0 <= j < |resigned| && EndPhaseOf(resigned[j]) == p;
      SelectHas(resigned, EndPhaseOf, j);
    } else {
      SelectNone(resigned, EndPhaseOf, p);
    }
  }

  /** The resignation table entry of one phase after one more game. */
  lemma ResignationEntrySnoc(s: seq<Analysis>, x: Analysis, p: Phase)
    ensures var t := ResignationTable(s);
      var t' := ResignationTable(s + [x]);
      var bump := IsResignedLoss(x) && x.endPhase == p;
      && (p in t' <==> p in t || bump)
      && (p in t' ==> t'[p] == (if p in t then t[p] else 0) + (if bump then 1 else 0))
  {
    var r := Filter(s, IsResignedLoss);
    var n := |Select(r, EndPhaseOf, p)|;
    ResignationTableCounts(s, p);
    ResignationTableCounts(s + [x], p);
    FilterSnoc(s, x, IsResignedLoss);
    if IsResignedLoss(x) {
      assert Filter(s + [x], IsResignedLoss) == r + [x];
      SelectSnoc(r, x, EndPhaseOf, p);
      assert |Select(r + [x], EndPhaseOf, p)| == n + if x.endPhase == p then 1 else 0;
    } else {
      assert Filter(s + [x], IsResignedLoss) == r;
    }
  }

  /** One more resigned loss bumps the entry of its end phase, adding it when missing; other games change nothing. */
  lemma ResignationTableSnoc(s: seq<Analysis>, x: Analysis)
    ensures var t := ResignationTable(s);
      ResignationTable(s + [x]) == if IsResignedLoss(x) then t[x.endPhase := (if x.endPhase in t then t[x.endPhase] else 0) + 1] else t
  {
    var t := ResignationTable(s);
    var t' := ResignationTable(s + [x]);
    var want := if IsResignedLoss(x) then t[x.endPhase := (if x.endPhase in t then t[x.endPhase] else 0) + 1] else t;
    forall p: Phase
      ensures (p in t' <==> p in want) && (p in t' ==> t'[p] == want[p])
    {
      ResignationEntrySnoc(s, x, p);
    }
    assert t'.Keys == want.Keys;
  }

  /** Each kind of mistake is a loss, so none counts more games than the losses. */
  lemma MistakesAreLosses(gs: seq<Analysis>)
    ensures Count(gs, IsQuickLoss) <= Count(gs, Lost)
    ensures Count(gs, IsTimeLoss) <= Count(gs, Lost)
    ensures Count(gs, IsBlunderLoss) <= Count(gs, Lost)
  {
    CountMono(gs, IsQuickLoss, Lost);
    CountMono(gs, IsTimeLoss, Lost);
    CountMono(gs, IsBlunderLoss, Lost);
  }

  /**
   * The two rates are the shares quick losses and losses on time take of
   * all losses; at most five quick losses are listed, each a loss of fewer
   * than twenty moves; the blunder hints are losses; a worst time control is
   * named exactly when some loss was on time, and it is the time control of
   * such a loss.
   */
  lemma MistakeFacts(gs: seq<Analysis>)
    ensures var m := MistakeSpec(gs);
      && 0.0 <= m.quickLossRate <= 100.0 && 0.0 <= m.timeLossRate <= 100.0
      && (Count(gs, Lost) > 0 ==> IsPercentOf(m.quickLossRate, Count(gs, IsQuickLoss), Count(gs, Lost)))
      && (Count(gs, Lost) > 0 ==> IsPercentOf(m.timeLossRate, Count(gs, IsTimeLoss), Count(gs, Lost)))
      && |m.quickLosses| <= 5
      && (forall k :: 0 <= k < |m.quickLosses| ==> m.quickLosses[k].moves < QuickLossMoves)
      && m.potentialBlunderGames <= Count(gs, Lost)
      && (m.worstTimeControl.Some? <==> Count(gs, IsTimeLoss) > 0)
  {
    MistakesAreLosses(gs);
    if Count(gs, Lost) > 0 {
      PercentScales(Count(gs, IsQuickLoss), Count(gs, Lost));
      PercentScales(Count(gs, IsTimeLoss), Count(gs, Lost));
    }
    var quick := QuickLosses(gs);
    var m := MistakeSpec(gs);
    forall k | 0 <= k < |m.quickLosses|
      ensures m.quickLosses[k].moves < QuickLossMoves
    {
      assert m.quickLosses[k] == quick[k] == QuickLossOf(Filter(gs, IsQuickLoss)[k]);
    }
    var times := TimeLosses(gs);
    if times != [] {
      KeysExactly(times, TimeLossControl, times[0].timeControl);
    }
  }

  /** The worst time control is that of a loss on time, and no time control has more such losses. */
  lemma WorstTimeControlFacts(gs: seq<Analysis>)
    requires MistakeSpec(gs).worstTimeControl.Some?
    ensures var tc := MistakeSpec(gs).worstTimeControl.value;
      && (exists k :: 0 <= k < |gs| && IsTimeLoss(gs[k]) && gs[k].timeControl == tc)
      && forall other :: |Select(TimeLosses(gs), TimeLossControl, other)| <= |Select(TimeLosses(gs), TimeLossControl, tc)|
  {
    var times := TimeLosses(gs);
    var h := Histogram(times, TimeLossControl);
    var tc := MistakeSpec(gs).worstTimeControl.value;
    var i :| 0 <= i < |h| && h[i].0 == tc && IsFirstMax(h, i);
    HistogramMostCommon(times, tc, i);
    KeysExactly(times, TimeLossControl, tc);
    TimeLossOccurs(gs, tc);
  }

  /** A time control some loss on time was played at is the time control of a game lost on time. */
  lemma TimeLossOccurs(gs: seq<Analysis>, tc: string)
    requires HasKey(TimeLosses(gs), TimeLossControl, tc)
    ensures exists k :: 0 <= k < |gs| && IsTimeLoss(gs[k]) && gs[k].timeControl == tc
  {
    var times := TimeLosses(gs);
    var j :| 0 <= j < |times| && TimeLossControl(times[j]) == tc;
    var lost := Filter(gs, IsTimeLoss);
    assert times[j] == TimeLossOf(lost[j]);
    assert IsTimeLoss(lost[j]) && lost[j] in gs;
    var k :| 0 <= k < |gs| && gs[k] == lost[j];
  }

  /** The first maximum of the histogram names a time control with no fewer losses on time than any other. */
  lemma HistogramMostCommon(times: seq<TimeLoss>, tc: string, i: nat)
    requires i < |Histogram(times, TimeLossControl)|
    requires Histogram(times, TimeLossControl)[i].0 == tc && IsFirstMax(Histogram(times, TimeLossControl), i)
    ensures forall other :: |Select(times, TimeLossControl, other)| <= |Select(times, TimeLossControl, tc)|
  {
    var h := Histogram(times, TimeLossControl);
    forall other
      ensures |Select(times, TimeLossControl, other)| <= |Select(times, TimeLossControl, tc)|
    {
      KeysExactly(times, TimeLossControl, other);
      if HasKey(times, TimeLossControl, other) {
        var b :| 0 <= b < |Keys(times, TimeLossControl)| && Keys(times, TimeLossControl)[b] == other;
        assert h[b].1 <= h[i].1;
      } else {
        SelectNone(times, TimeLossControl, other);
      }
    }
  }

  // ---------------------------------------------------------------------------
  // analyze_endgames
  // ---------------------------------------------------------------------------

  datatype EndgameKind = PawnEnding | RookEnding | MinorEnding | QueenEnding

  /** `moves[-10:]` for at least ten moves, all moves otherwise: the last ten or fewer. */
  function LateMoves(moves: seq<string>): (late: seq<string>)
    ensures |late| == if |moves| >= 10 then 10 else |moves|
    ensures forall k :: 0 <= k < |late| ==> late[k] == moves[|moves| - |late| + k]
  {
    if |moves| >= 10 then moves[|moves| - 10..] else moves
  }

  /**
   * The category of an endgame from the letters of its late moves: queen
   * before rook before minor piece, pawn when none of those letters occurs.
   */
  function KindOf(late: string): (k: EndgameKind)
    ensures k == QueenEnding <==> 'Q' in late || 'q' in late
    ensures k == RookEnding <==> !('Q' in late || 'q' in late) && ('R' in late || 'r' in late)
    ensures k == MinorEnding <==>
      !('Q' in late || 'q' in late) && !('R' in late || 'r' in late)
      && ('N' in late || 'B' in late || 'n' in late || 'b' in late)
  {
    if 'Q' in late || 'q' in late then QueenEnding
    else if 'R' in late || 'r' in late then RookEnding
    else if 'N' in late || 'B' in late || 'n' in late || 'b' in late then MinorEnding
    else PawnEnding
  }

  /** The category of one endgame, from its last ten moves joined with spaces. */
  function EndgameKindOf(a: Analysis): EndgameKind {
    KindOf(Join(LateMoves(a.moves), " "))
  }

  /** A letter other than the space occurs in the joined moves exactly when it occurs in one of them. */
  lemma LetterInJoin(words: seq<string>, c: char)
    requires c != ' '
    ensures c in Join(words, " ") <==> exists i :: 0 <= i < |words| && c in words[i]
  {
    JoinChars(words, " ", c);
    if exists i :: 0 <= i < |words| && c in words[i] {
      var i :| 0 <= i < |words| && c in words[i];
      JoinKeepsChars(words, " ", i, c);
    }
  }

  /** Some move among the last ten contains `c`. */
  predicate LateMoveHas(a: Analysis, c: char) {
    exists i :: 0 <= i < |LateMoves(a.moves)| && c in LateMoves(a.moves)[i]
  }

  /**
   * An endgame is a queen endgame exactly when one of its last ten moves
   * contains `Q` or `q`, and a rook endgame exactly when none does but one
   * contains `R` or `r`.
   */
  lemma EndgameKindOfMoves(a: Analysis)
    ensures EndgameKindOf(a) == QueenEnding <==> LateMoveHas(a, 'Q') || LateMoveHas(a, 'q')
    ensures EndgameKindOf(a) == RookEnding <==>
      !(LateMoveHas(a, 'Q') || LateMoveHas(a, 'q')) && (LateMoveHas(a, 'R') || LateMoveHas(a, 'r'))
  {
    var late := LateMoves(a.moves);
    LetterInJoin(late, 'Q');
    LetterInJoin(late, 'q');
    LetterInJoin(late, 'R');
    LetterInJoin(late, 'r');
  }

  predicate IsEndgame(a: Analysis) { a.endPhase == Endgame }
  /** `rating_diff < -50`: the subject was the stronger player. */
  predicate AheadOnRating(a: Analysis) { a.ratingDiff < AheadMargin }

  /** An entry `{'count', 'win_rate'}` for one category. */
  datatype KindLine = KindLine(count: nat, winRate: real)

  /** The entry for the games of one category, absent when there are none. */
  function KindLineOf(gs: seq<Analysis>): Option<KindLine> {
    if gs == [] then None else Some(KindLine(|gs|, Percent(Count(gs, Won), |gs|)))
  }

  /** The dict `analyze_endgames` returns; `NoEndgames` is `{'no_endgames': True}`. */
  datatype EndgameAnalysis =
    | NoEndgames
    | EndgameReport(
        totalEndgames: nat,
        endgameWinRate: real,
        pawnEndgames: Option<KindLine>,
        rookEndgames: Option<KindLine>,
        minorEndgames: Option<KindLine>,
        queenEndgames: Option<KindLine>,
        conversionRateWhenAhead: Option<real>)

  /** The endgames of one category, in game order. */
  function OfKind(endgames: seq<Analysis>, k: EndgameKind): seq<Analysis> {
    Select(endgames, EndgameKindOf, k)
  }

  /** The value `analyze_endgames` returns. */
  function EndgameSpec(gs: seq<Analysis>): EndgameAnalysis {
    var endgames := Filter(gs, IsEndgame);
    if endgames == [] then NoEndgames
    else
      var ahead := Filter(endgames, AheadOnRating);
      EndgameReport(
        |endgames|, Percent(Count(endgames, Won), |endgames|),
        KindLineOf(OfKind(endgames, PawnEnding)), KindLineOf(OfKind(endgames, RookEnding)),
        KindLineOf(OfKind(endgames, MinorEnding)), KindLineOf(OfKind(endgames, QueenEnding)),
        if ahead == [] then None else Some(Percent(Count(ahead, Won), |ahead|)))
  }

  /** Every endgame falls into exactly one category, so the categories split the endgames. */
  lemma {:induction false} KindsSplit(s: seq<Analysis>)
    ensures |OfKind(s, PawnEnding)| + |OfKind(s, RookEnding)| + |OfKind(s, MinorEnding)| + |OfKind(s, QueenEnding)| == |s|
  {
    if s != [] {
      KindsSplit(s[..|s| - 1]);
    }
  }

  /** The number of entries present. */
  function Present(l: Option<KindLine>): nat {
    if l.Some? then l.value.count else 0
  }

  /**
   * There is a report exactly when some game ended in the endgame; then the
   * category counts add up to the number of endgames, every rate is a
   * percentage, and the conversion rate is present exactly when some endgame
   * was played against a weaker opponent.
   */
  lemma EndgameFacts(gs: seq<Analysis>)
    ensures EndgameSpec(gs).NoEndgames? <==> Count(gs, IsEndgame) == 0
    ensures var e := EndgameSpec(gs);
      e.EndgameReport? ==>
        && e.totalEndgames == Count(gs, IsEndgame)
        && Present(e.pawnEndgames) + Present(e.rookEndgames) + Present(e.minorEndgames) + Present(e.queenEndgames) == e.totalEndgames
        && 0.0 <= e.endgameWinRate <= 100.0
        && (e.conversionRateWhenAhead.Some? <==> Count(Filter(gs, IsEndgame), AheadOnRating) > 0)
        && (e.conversionRateWhenAhead.Some? ==> 0.0 <= e.conversionRateWhenAhead.value <= 100.0)
  {
    var endgames := Filter(gs, IsEndgame);
    KindsSplit(endgames);
  }

  /** The entry of a report for category `k`. */
  function KindEntry(e: EndgameAnalysis, k: EndgameKind): Option<KindLine>
    requires e.EndgameReport?
  {
    match k
    case PawnEnding => e.pawnEndgames
    case RookEnding => e.rookEndgames
    case MinorEnding => e.minorEndgames
    case QueenEnding => e.queenEndgames
  }

  /** Some game ended in the endgame and falls into category `k`. */
  predicate HasEndgameOfKind(gs: seq<Analysis>, k: EndgameKind) {
    exists i :: 0 <= i < |gs| && IsEndgame(gs[i]) && EndgameKindOf(gs[i]) == k
  }

  /** The endgames of category `k` are non-empty exactly when some game ended in the endgame with that category. */
  lemma OfKindNonEmpty(gs: seq<Analysis>, k: EndgameKind)
    ensures OfKind(Filter(gs, IsEndgame), k) != [] <==> HasEndgameOfKind(gs, k)
  {
    if HasEndgameOfKind(gs, k) {
      var i :| 0 <= i < |gs| && IsEndgame(gs[i]) && EndgameKindOf(gs[i]) == k;
      EndgameOfKindListed(gs, k, i);
    }
    if OfKind(Filter(gs, IsEndgame), k) != [] {
      ListedEndgameOfKind(gs, k);
    }
  }

  /** A game that ended in the endgame with category `k` is among the endgames of that category. */
  lemma EndgameOfKindListed(gs: seq<Analysis>, k: EndgameKind, i: nat)
    requires i < |gs| && IsEndgame(gs[i]) && EndgameKindOf(gs[i]) == k
    ensures OfKind(Filter(gs, IsEndgame), k) != []
  {
    var endgames := Filter(gs, IsEndgame);
    EndgamesKept(gs, i);
    var j :| 0 <= j < |endgames| && endgames[j] == gs[i];
    SelectHas(endgames, EndgameKindOf, j);
  }

  /** An endgame of category `k` is a game that ended in the endgame with that category. */
  lemma ListedEndgameOfKind(gs: seq<Analysis>, k: EndgameKind)
    requires OfKind(Filter(gs, IsEndgame), k) != []
    ensures HasEndgameOfKind(gs, k)
  {
    var endgames := Filter(gs, IsEndgame);
    var x := OfKind(endgames, k)[0];
    assert x in OfKind(endgames, k);
    assert x in endgames && EndgameKindOf(x) == k;
    var j :| 0 <= j < |endgames| && endgames[j] == x;
    assert IsEndgame(x) && x in gs;
    var i :| 0 <= i < |gs| && gs[i] == x;
  }

  /** A category is reported exactly when one of the endgames falls into it. */
  lemma KindReported(gs: seq<Analysis>, k: EndgameKind)
    requires Count(gs, IsEndgame) > 0
    ensures EndgameSpec(gs).EndgameReport?
    ensures KindEntry(EndgameSpec(gs), k).Some? <==> HasEndgameOfKind(gs, k)
  {
    KindEntryIs(gs, k);
    OfKindNonEmpty(gs, k);
  }

  /** A report's entry for category `k` is built from the endgames of that category. */
  lemma KindEntryIs(gs: seq<Analysis>, k: EndgameKind)
    requires Count(gs, IsEndgame) > 0
    ensures EndgameSpec(gs).EndgameReport?
    ensures KindEntry(EndgameSpec(gs), k) == KindLineOf(OfKind(Filter(gs, IsEndgame), k))
  {
    assert Filter(gs, IsEndgame) != [];
  }

  /** Every game that ended in the endgame is among the endgames. */
  lemma {:induction false} EndgamesKept(gs: seq<Analysis>, i: nat)
    requires i < |gs| && IsEndgame(gs[i])
    ensures gs[i] in Filter(gs, IsEndgame)
  {
    if i < |gs| - 1 {
      EndgamesKept(gs[..|gs| - 1], i);
    }
  }
}
