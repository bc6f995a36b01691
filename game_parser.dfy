/**
 * The per-game parser of `analyzer/game_parser.py`: one raw game record as the
 * Chess.com archive delivers it, turned into the fact sheet the metrics are
 * computed from.
 *
 * The record is a JSON object; a field that may be absent is an `Option`, and
 * a subscript of an absent field (Python's `KeyError`) is the `Err` of the
 * parse. Local time is a parameter: `localTime` maps the epoch seconds of
 * `end_time` to the seconds since 1970-01-01 00:00 of the naive local
 * date-time `datetime.fromtimestamp` produces.
 */
module GameParser {
  import opened Wrappers
  import opened Text
  import opened Tally
  import PgnScan

  /** Last move number of the opening (`OPENING_PHASE_END`). */
  const OpeningPhaseEnd: nat := 15
  /** Last move number of the middlegame (`MIDDLEGAME_PHASE_END`). */
  const MiddlegamePhaseEnd: nat := 35
  /** A clock below this many seconds is time pressure (`TIME_PRESSURE_SECONDS`). */
  const TimePressureSeconds: real := 30.0

  // ---------------------------------------------------------------------------
  // The raw record and the fact sheet
  // ---------------------------------------------------------------------------

  /** `game_json['white']` or `game_json['black']`. */
  datatype RawSide = RawSide(username: Option<string>, rating: Option<int>, result: Option<string>)

  /** The fields of one archived game that the parser reads. */
  datatype RawGame = RawGame(
    url: Option<string>,
    timeClass: Option<string>,
    rated: Option<bool>,
    endTime: Option<int>,
    white: Option<RawSide>,
    black: Option<RawSide>,
    pgn: Option<string>,
    eco: Option<string>)

  /** A subscript of a field the record does not have. */
  datatype ParseFailure = MissingField

  datatype Color = White | Black
  datatype ResultType = Win | Loss | Draw
  datatype Phase = Opening | Middlegame | Endgame
  /** The six values of `termination`: checkmate, resignation, time, stalemate, draw, other. */
  datatype Termination = ByCheckmate | ByResignation | OnTime | ByStalemate | ByAgreement | OtherEnding

  /** The keys `_determine_player_color` contributes. */
  datatype ColorData = ColorData(
    color: Color,
    result: string,
    opponent: string,
    playerRating: int,
    opponentRating: int,
    resultType: ResultType)

  /** One entry of `TIME_CATEGORIES`: a name and the half-open hour range `[start, end)`. */
  datatype TimeCategory = TimeCategory(name: string, start: int, end: int)

  /** One of `critical_moves`: the subject's move number, the time it took, the clock before it. */
  datatype CriticalMove = CriticalMove(moveNumber: nat, diff: real, clockBefore: real)

  /** `avg_time_per_phase`. */
  datatype PhaseTimes = PhaseTimes(opening: real, middlegame: real, endgame: real)

  /** `critical_moves` and `avg_time_per_move`, present only with two or more readings. */
  datatype MoveTiming = MoveTiming(criticalMoves: seq<CriticalMove>, avgTimePerMove: real)

  /** The keys `_extract_time_data` contributes when it returns a non-empty dict. */
  datatype TimeStats = TimeStats(
    timeData: seq<real>,
    finalTime: real,
    timePressureMoves: nat,
    avgTimePerPhase: PhaseTimes,
    timing: Option<MoveTiming>)

  /** The keys `_analyze_trades` contributes. */
  datatype Trades = Trades(tradesInitiated: nat, pieceTrades: map<char, nat>, queenTrade: bool)

  /** `tactics`: a flag is true when the key is present. */
  datatype Tactics = Tactics(forks: bool, discovered: bool, backRank: bool)

  /** The dict `parse_game` returns. */
  datatype ParsedGame = ParsedGame(
    url: string,
    timeControl: string,
    rated: bool,
    date: int,
    colorData: ColorData,
    moves: seq<string>,
    totalMoves: nat,
    endPhase: Phase,
    opening: string,
    openingMoves: string,
    termination: Termination,
    dayOfWeek: string,
    hourOfDay: nat,
    timeOfDay: string,
    time: Option<TimeStats>,
    pieceActivity: map<char, nat>,
    capturesMade: nat,
    trades: Trades,
    tactics: Tactics)

  // ---------------------------------------------------------------------------
  // Result, colour and phase
  // ---------------------------------------------------------------------------

  /** `_simplify_result`: the loss codes are checkmated, resigned, timeout and abandoned; every other code but `win` is a draw. */
  function SimplifyResult(result: string): (t: ResultType)
    ensures t == Win <==> result == "win"
    ensures t == Loss <==> result in {"checkmated", "resigned", "timeout", "abandoned"}
  {
    if result == "win" then Win
    else if result in {"checkmated", "resigned", "timeout", "abandoned"} then Loss
    else Draw
  }

  /** Case-insensitive name comparison (`a.lower() == b.lower()`). */
  predicate SameName(a: string, b: string) {
    ToLower(a) == ToLower(b)
  }

  /** The fields `_determine_player_color` subscripts are all present. */
  predicate HasColorFields(g: RawGame, username: string) {
    && g.white.Some? && g.white.value.username.Some?
    && g.black.Some?
    && if SameName(g.white.value.username.value, username) then
         && g.white.value.result.Some? && g.white.value.rating.Some?
         && g.black.value.username.Some? && g.black.value.rating.Some?
       else
         && g.black.value.result.Some? && g.black.value.rating.Some?
         && g.white.value.rating.Some?
  }

  /**
   * `_determine_player_color`: the subject is White exactly when White's name
   * matches case-insensitively; in every other case the subject is taken to be
   * Black, whether or not Black's name matches.
   */
  function DeterminePlayerColor(g: RawGame, username: string): (r: Result<ColorData, ParseFailure>)
    ensures r.Ok? <==> HasColorFields(g, username)
    ensures r.Ok? ==> (r.value.color == White <==> SameName(g.white.value.username.value, username))
    ensures r.Ok? && r.value.color == White ==>
      && r.value.result == g.white.value.result.value
      && r.value.opponent == g.black.value.username.value
      && r.value.playerRating == g.white.value.rating.value
      && r.value.opponentRating == g.black.value.rating.value
    ensures r.Ok? && r.value.color == Black ==>
      && r.value.result == g.black.value.result.value
      && r.value.opponent == g.white.value.username.value
      && r.value.playerRating == g.black.value.rating.value
      && r.value.opponentRating == g.white.value.rating.value
    ensures r.Ok? ==> r.value.resultType == SimplifyResult(r.value.result)
  {
    if !HasColorFields(g, username) then Err(MissingField)
    else
      var w := g.white.value;
      var b := g.black.value;
      if SameName(w.username.value, username) then
        Ok(ColorData(White, w.result.value, b.username.value, w.rating.value, b.rating.value,
                     SimplifyResult(w.result.value)))
      else
        Ok(ColorData(Black, b.result.value, w.username.value, b.rating.value, w.rating.value,
                     SimplifyResult(b.result.value)))
  }

  /** Lower-casing twice is lower-casing once. */
  lemma LowerIdempotent(s: string)
    ensures ToLower(ToLower(s)) == ToLower(s)
  {
  }

  /** The colour decision ignores the case of the subject's name. */
  lemma ColorIgnoresCase(g: RawGame, username: string)
    ensures DeterminePlayerColor(g, ToLower(username)) == DeterminePlayerColor(g, username)
  {
    LowerIdempotent(username);
  }

  /** `_analyze_game_phases`: opening up to move 15, middlegame up to move 35, endgame after. */
  function PhaseOf(totalMoves: nat): (p: Phase)
    ensures p == Opening <==> totalMoves <= OpeningPhaseEnd
    ensures p == Endgame <==> totalMoves > MiddlegamePhaseEnd
  {
    if totalMoves <= OpeningPhaseEnd then Opening
    else if totalMoves <= MiddlegamePhaseEnd then Middlegame
    else Endgame
  }

  /** The order in which a game passes through the phases. */
  function PhaseRank(p: Phase): nat {
    match p
    case Opening => 0
    case Middlegame => 1
    case Endgame => 2
  }

  /** A longer game never ends in an earlier phase. */
  lemma PhaseMonotone(a: nat, b: nat)
    requires a <= b
    ensures PhaseRank(PhaseOf(a)) <= PhaseRank(PhaseOf(b))
  {
  }

  /** The boundaries: 15 moves is still the opening, 16 the middlegame, 35 still the middlegame, 36 the endgame. */
  lemma PhaseBoundaries()
    ensures PhaseOf(15) == Opening && PhaseOf(16) == Middlegame
    ensures PhaseOf(35) == Middlegame && PhaseOf(36) == Endgame
  {
  }

  // ---------------------------------------------------------------------------
  // Opening name and termination
  // ---------------------------------------------------------------------------

  /** `_extract_opening`: the last `/`-segment of the ECO URL with dashes turned into spaces, or `Unknown`. */
  function ExtractOpening(eco: Option<string>): (name: string)
    ensures eco.None? ==> name == "Unknown"
    ensures '/' !in name && '-' !in name
    ensures eco.Some? ==> |name| == |eco.value| - LastSegmentStart(eco.value)
  {
    match eco
    case None => "Unknown"
    case Some(url) => ReplaceChar(url[LastSegmentStart(url)..], '-', ' ')
  }

  /** An ECO URL ending in `/<slug>` yields the slug with its dashes read as spaces. */
  lemma {:induction false} OpeningOfUrl(prefix: string, slug: string)
    requires '/' !in slug
    ensures ExtractOpening(Some(prefix + "/" + slug)) == ReplaceChar(slug, '-', ' ')
  {
    var url := prefix + "/" + slug;
    var k := LastSegmentStart(url);
    assert url[|prefix|] == '/';
    assert forall j :: |prefix| < j < |url| ==> url[j] == slug[j - |prefix| - 1];
    assert k == |prefix| + 1;
    assert url[k..] == slug;
  }

  /** `_analyze_termination`: the first test that holds, in the order checkmate, resignation, time, stalemate, draw. */
  function AnalyzeTermination(pgn: string, result: string): (t: Termination)
    ensures t == ByCheckmate <==> Contains(ToLower(pgn), "checkmate")
    ensures t == ByResignation <==>
      !Contains(ToLower(pgn), "checkmate")
      && (Contains(ToLower(pgn), "resignation") || Contains(result, "resigned"))
    ensures t == OnTime <==>
      !Contains(ToLower(pgn), "checkmate")
      && !(Contains(ToLower(pgn), "resignation") || Contains(result, "resigned"))
      && (Contains(ToLower(pgn), "time") || Contains(result, "timeout"))
    ensures t == ByStalemate <==>
      !Contains(ToLower(pgn), "checkmate")
      && !(Contains(ToLower(pgn), "resignation") || Contains(result, "resigned"))
      && !(Contains(ToLower(pgn), "time") || Contains(result, "timeout"))
      && Contains(ToLower(pgn), "stalemate")
    ensures t == ByAgreement <==>
      !Contains(ToLower(pgn), "checkmate")
      && !(Contains(ToLower(pgn), "resignation") || Contains(result, "resigned"))
      && !(Contains(ToLower(pgn), "time") || Contains(result, "timeout"))
      && !Contains(ToLower(pgn), "stalemate")
      && Contains(result, "draw")
    ensures t == OtherEnding <==>
      !Contains(ToLower(pgn), "checkmate")
      && !(Contains(ToLower(pgn), "resignation") || Contains(result, "resigned"))
      && !(Contains(ToLower(pgn), "time") || Contains(result, "timeout"))
      && !Contains(ToLower(pgn), "stalemate")
      && !Contains(result, "draw")
  {
    var text := ToLower(pgn);
    if Contains(text, "checkmate") then ByCheckmate
    else if Contains(text, "resignation") || Contains(result, "resigned") then ByResignation
    else if Contains(text, "time") || Contains(result, "timeout") then OnTime
    else if Contains(text, "stalemate") then ByStalemate
    else if Contains(result, "draw") then ByAgreement
    else OtherEnding
  }

  /** The keyword tests on the movetext ignore letter case. */
  lemma TerminationIgnoresCase(pgn: string, result: string)
    ensures AnalyzeTermination(ToLower(pgn), result) == AnalyzeTermination(pgn, result)
  {
    LowerIdempotent(pgn);
  }

  /** A `TimeControl` header puts `time` into the lower-cased text. */
  lemma TimeControlHeaderSaysTime(pgn: string)
    requires Contains(pgn, "[TimeControl")
    ensures Contains(ToLower(pgn), "time")
  {
    var k :| 0 <= k <= |pgn| - |"[TimeControl"| && OccursAt(pgn, "[TimeControl", k);
    HeaderLowersToTime(pgn, k);
  }

  /** Lower-casing a `[TimeControl` at `k` leaves `time` at `k + 1`. */
  lemma HeaderLowersToTime(pgn: string, k: int)
    requires OccursAt(pgn, "[TimeControl", k)
    ensures OccursAt(ToLower(pgn), "time", k + 1)
  {
    var low := ToLower(pgn);
    var header := pgn[k..k + 12];
    assert header == "[TimeControl";
    assert header[1] == 'T' && header[2] == 'i' && header[3] == 'm' && header[4] == 'e';
    forall j | 1 <= j < 5
      ensures pgn[k + j] == header[j]
    {
    }
    assert low[k + 1] == 't' && low[k + 2] == 'i' && low[k + 3] == 'm' && low[k + 4] == 'e';
    assert low[k + 1..k + 5] == "time";
  }

  /**
   * Every Chess.com PGN carries a `TimeControl` header, so a game that was not
   * mated and not resigned is classified as lost or drawn on time, whatever
   * its result code.
   */
  lemma TimeControlMasksLaterEndings(pgn: string, result: string)
    requires Contains(pgn, "[TimeControl")
    requires !Contains(ToLower(pgn), "checkmate") && !Contains(ToLower(pgn), "resignation")
    requires !Contains(result, "resigned")
    ensures AnalyzeTermination(pgn, result) == OnTime
  {
    TimeControlHeaderSaysTime(pgn);
  }

  // ---------------------------------------------------------------------------
  // Local date and time of day
  // ---------------------------------------------------------------------------

  const SecondsPerDay: nat := 86400

  /** `strftime('%a')` in the C locale, Monday first. */
  const DayNames: seq<string> := ["Mon", "Tue", "Wed", "Thu", "Fri", "Sat", "Sun"]

  /** `date.hour` of a naive local date-time given as seconds since 1970-01-01 00:00. */
  function HourOf(date: int): (h: nat)
    ensures h < 24
  {
    (date % SecondsPerDay) / 3600
  }

  /** `date.date()`: the day number since 1970-01-01. */
  function DayOf(date: int): int {
    date / SecondsPerDay
  }

  /** `date.strftime('%a')`: 1970-01-01 was a Thursday. */
  function WeekdayOf(date: int): (name: string)
    ensures name in DayNames
  {
    DayNames[(DayOf(date) + 3) % 7]
  }

  /** Each day is one weekday later than the day before. */
  lemma WeekdayAdvances(date: int)
    ensures WeekdayOf(date + SecondsPerDay) == DayNames[(DayOf(date) + 4) % 7]
  {
    assert DayOf(date + SecondsPerDay) == DayOf(date) + 1;
  }

  /** The hour lies in the category's half-open range. */
  predicate InCategory(c: TimeCategory, hour: int) {
    c.start <= hour < c.end
  }

  /** Category `i` is the first, in insertion order, whose range holds `hour`. */
  predicate FirstCategory(categories: seq<TimeCategory>, hour: int, i: int) {
    && 0 <= i < |categories| && InCategory(categories[i], hour)
    && forall j :: 0 <= j < i ==> !InCategory(categories[j], hour)
  }

  /** No category's range holds `hour`. */
  predicate NoCategory(categories: seq<TimeCategory>, hour: int) {
    forall i :: 0 <= i < |categories| ==> !InCategory(categories[i], hour)
  }

  /** `_get_time_of_day`: the name of the first category (in insertion order) whose range holds `hour`, else `Unknown`. */
  function GetTimeOfDay(categories: seq<TimeCategory>, hour: int): (name: string)
    ensures NoCategory(categories, hour) ==> name == "Unknown"
    ensures forall i :: FirstCategory(categories, hour, i) ==> name == categories[i].name
  {
    if categories == [] then "Unknown"
    else if InCategory(categories[0], hour) then categories[0].name
    else
      CategoryTail(categories, hour);
      GetTimeOfDay(categories[1..], hour)
  }

  /** When the first category misses `hour`, the first match and "no match" carry over to the rest. */
  lemma CategoryTail(categories: seq<TimeCategory>, hour: int)
    requires categories != [] && !InCategory(categories[0], hour)
    ensures NoCategory(categories, hour) <==> NoCategory(categories[1..], hour)
    ensures forall i :: FirstCategory(categories, hour, i) <==> i >= 1 && FirstCategory(categories[1..], hour, i - 1)
  {
    var rest := categories[1..];
    assert forall i :: 1 <= i < |categories| ==> categories[i] == rest[i - 1];
    forall i
      ensures FirstCategory(categories, hour, i) <==> i >= 1 && FirstCategory(rest, hour, i - 1)
    {
      if i >= 1 && FirstCategory(rest, hour, i - 1) {
        forall j | 0 <= j < i
          ensures !InCategory(categories[j], hour)
        {
          if j >= 1 {
            assert categories[j] == rest[j - 1];
          }
        }
      }
    }
  }

  // ---------------------------------------------------------------------------
  // Time management
  // ---------------------------------------------------------------------------

  /** Every clock reading of the movetext in seconds, in document order. */
  function ClockValues(cs: seq<PgnScan.Clock>): (ts: seq<real>)
    ensures |ts| == |cs|
    ensures forall k :: 0 <= k < |cs| ==> ts[k] == PgnScan.ClockSeconds(cs[k])
  {
    seq(|cs|, k requires 0 <= k < |cs| => PgnScan.ClockSeconds(cs[k]))
  }

  /** `time_data`: the readings of the raw PGN (comments included), converted to seconds. */
  function AllClockTimes(pgn: string): seq<real> {
    ClockValues(PgnScan.ClockMatches(pgn, 0))
  }

  /** Index of the subject's first reading: White's clock comes first. */
  function FirstIndex(color: Color): nat {
    if color == White then 0 else 1
  }

  /** `player_times`: the readings at the subject's parity, `time_data[first::2]`. */
  function PlayerTimes(ts: seq<real>, color: Color): (ps: seq<real>)
    ensures |ps| == if |ts| <= FirstIndex(color) then 0 else (|ts| - FirstIndex(color) + 1) / 2
    ensures forall k :: 0 <= k < |ps| ==> FirstIndex(color) + 2 * k < |ts| && ps[k] == ts[FirstIndex(color) + 2 * k]
  {
    var f := FirstIndex(color);
    var n := if |ts| <= f then 0 else (|ts| - f + 1) / 2;
    seq(n, k requires 0 <= k < n => ts[f + 2 * k])
  }

  /** Every reading at the subject's parity is among the subject's readings: `time_data[i]` is `player_times[i // 2]`. */
  lemma ParityReading(ts: seq<real>, color: Color, i: nat)
    requires i < |ts| && i % 2 == FirstIndex(color)
    ensures i / 2 < |PlayerTimes(ts, color)| && PlayerTimes(ts, color)[i / 2] == ts[i]
  {
    assert FirstIndex(color) + 2 * (i / 2) == i;
  }

  /** The subject's readings in a PGN. */
  function SubjectTimes(pgn: string, color: Color): seq<real> {
    PlayerTimes(AllClockTimes(pgn), color)
  }

  /** `time_diffs`: the time spent between consecutive readings of the subject. */
  function Diffs(ps: seq<real>): (ds: seq<real>)
    ensures |ds| == if ps == [] then 0 else |ps| - 1
    ensures forall i :: 0 <= i < |ds| ==> ds[i] == ps[i] - ps[i + 1]
  {
    if ps == [] then [] else seq(|ps| - 1, i requires 0 <= i < |ps| - 1 => ps[i] - ps[i + 1])
  }

  /** The time spent over all moves telescopes to the first reading minus the last. */
  lemma {:induction false} DiffsTelescope(ps: seq<real>)
    requires ps != []
    ensures Total(Diffs(ps)) == ps[0] - ps[|ps| - 1]
  {
    if |ps| > 1 {
      var n := |ps|;
      var init := ps[..n - 1];
      var ds, di := Diffs(ps), Diffs(init);
      DiffsTelescope(init);
      assert |di| == n - 2 && |ds| == n - 1;
      forall i | 0 <= i < n - 2
        ensures ds[i] == di[i]
      {
        assert init[i] == ps[i] && init[i + 1] == ps[i + 1];
      }
      assert ds[..n - 2] == di;
      assert ds[n - 2] == ps[n - 2] - ps[n - 1];
      assert Total(ds) == Total(di) + ds[n - 2];
      assert init[0] == ps[0] && init[n - 2] == ps[n - 2];
    } else {
      assert Diffs(ps) == [];
    }
  }

  /** The critical-move test: a move much slower than average, or much faster with the next clock below the threshold. */
  predicate IsCritical(diff: real, avg: real, nextClock: real, threshold: real) {
    diff > 3.0 * avg || (diff < avg / 3.0 && nextClock < threshold)
  }

  /** Some entry of `cm` is the subject's move number `m`. */
  predicate Records(cm: seq<CriticalMove>, m: nat) {
    exists k :: 0 <= k < |cm| && cm[k].moveNumber == m
  }

  /** A recorded critical move lies within the subject's readings and passes the critical-move test. */
  predicate SoundCritical(c: CriticalMove, ps: seq<real>, avg: real, threshold: real) {
    && 1 <= c.moveNumber < |ps|
    && c.clockBefore == ps[c.moveNumber - 1]
    && c.diff == ps[c.moveNumber - 1] - ps[c.moveNumber]
    && IsCritical(c.diff, avg, ps[c.moveNumber], threshold)
  }

  /** The move from reading `i` to reading `i + 1` passes the critical-move test. */
  predicate CriticalAt(ps: seq<real>, avg: real, threshold: real, i: nat)
    requires i + 1 < |ps|
  {
    IsCritical(ps[i] - ps[i + 1], avg, ps[i + 1], threshold)
  }

  /** The critical moves among the first `n` differences, in move order. */
  function CriticalMoves(ps: seq<real>, avg: real, threshold: real, n: nat): (cm: seq<CriticalMove>)
    requires n < |ps|
    ensures |cm| <= n
  {
    if n == 0 then []
    else
      var i := n - 1;
      CriticalMoves(ps, avg, threshold, i)
        + (if CriticalAt(ps, avg, threshold, i) then [CriticalMove(i + 1, ps[i] - ps[i + 1], ps[i])] else [])
  }

  /** `cm` lists exactly the moves among the first `n` that pass the test, each once, in move order. */
  predicate ExactlyCritical(cm: seq<CriticalMove>, ps: seq<real>, avg: real, threshold: real, n: nat)
    requires n < |ps|
  {
    && (forall k :: 0 <= k < |cm| ==> SoundCritical(cm[k], ps, avg, threshold) && cm[k].moveNumber <= n)
    && (forall i :: 0 <= i < n && CriticalAt(ps, avg, threshold, i) ==> Records(cm, i + 1))
    && (forall k, l :: 0 <= k < l < |cm| ==> cm[k].moveNumber < cm[l].moveNumber)
  }

  /** The critical moves are exactly the moves that pass the test, each once, in move order. */
  lemma {:induction false} CriticalMovesExact(ps: seq<real>, avg: real, threshold: real, n: nat)
    requires n < |ps|
    ensures ExactlyCritical(CriticalMoves(ps, avg, threshold, n), ps, avg, threshold, n)
  {
    if n > 0 {
      var i := n - 1;
      var init := CriticalMoves(ps, avg, threshold, i);
      CriticalMovesExact(ps, avg, threshold, i);
      if CriticalAt(ps, avg, threshold, i) {
        CriticalMoveAdded(ps, avg, threshold, i, init);
        assert CriticalMoves(ps, avg, threshold, n) == init + [CriticalMove(i + 1, ps[i] - ps[i + 1], ps[i])];
      } else {
        NoCriticalMoveAdded(ps, avg, threshold, i, init);
        assert CriticalMoves(ps, avg, threshold, n) == init + [];
        assert init + [] == init;
      }
    }
  }

  /** Recording a move that passes the test keeps the list exact one move further. */
  lemma CriticalMoveAdded(ps: seq<real>, avg: real, threshold: real, i: nat, init: seq<CriticalMove>)
    requires i + 1 < |ps| && CriticalAt(ps, avg, threshold, i)
    requires ExactlyCritical(init, ps, avg, threshold, i)
    ensures ExactlyCritical(init + [CriticalMove(i + 1, ps[i] - ps[i + 1], ps[i])], ps, avg, threshold, i + 1)
  {
    var c := CriticalMove(i + 1, ps[i] - ps[i + 1], ps[i]);
    var cm := init + [c];
    assert SoundCritical(c, ps, avg, threshold);
    assert Records(cm, i + 1) by { assert cm[|init|] == c; }
    forall k, l | 0 <= k < l < |cm|
      ensures cm[k].moveNumber < cm[l].moveNumber
    {
      assert cm[k] == init[k];
      if l < |init| {
        assert cm[l] == init[l];
      }
    }
    forall j | 0 <= j < i && CriticalAt(ps, avg, threshold, j)
      ensures Records(cm, j + 1)
    {
      var k :| 0 <= k < |init| && init[k].moveNumber == j + 1;
      assert cm[k] == init[k];
    }
  }

  /** Passing over a move that fails the test keeps the list exact one move further. */
  lemma NoCriticalMoveAdded(ps: seq<real>, avg: real, threshold: real, i: nat, init: seq<CriticalMove>)
    requires i + 1 < |ps| && !CriticalAt(ps, avg, threshold, i)
    requires ExactlyCritical(init, ps, avg, threshold, i)
    ensures ExactlyCritical(init, ps, avg, threshold, i + 1)
  {
  }

  /** A reading below `TIME_PRESSURE_SECONDS`. */
  predicate UnderPressure(t: real) {
    t < TimePressureSeconds
  }

  /** `min(n, limit)`: where a phase's readings stop when there are only `n`. */
  function Cap(n: nat, limit: nat): (c: nat)
    ensures c <= n && c <= limit && (c == n || c == limit)
  {
    if n < limit then n else limit
  }

  /** `avg_time_per_phase`: the mean reading for moves 1-15, 16-35 and 36 on, 0 for a phase without readings. */
  function PhaseAverages(ps: seq<real>): PhaseTimes {
    var n := |ps|;
    PhaseTimes(
      Mean(ps[..Cap(n, OpeningPhaseEnd)]),
      Mean(ps[Cap(n, OpeningPhaseEnd)..Cap(n, MiddlegamePhaseEnd)]),
      Mean(ps[Cap(n, MiddlegamePhaseEnd)..]))
  }

  /** `avg_time_per_move`: the mean of the time differences. */
  function AvgTimePerMove(ps: seq<real>): real {
    Mean(Diffs(ps))
  }

  /** `critical_moves` (the first five) and `avg_time_per_move`, present from two readings on. */
  function TimingOf(ps: seq<real>, criticalThreshold: real): Option<MoveTiming> {
    if |ps| > 1 then
      var avg := AvgTimePerMove(ps);
      Some(MoveTiming(Take(CriticalMoves(ps, avg, criticalThreshold, |ps| - 1), 5), avg))
    else None
  }

  /**
   * The contents of `_extract_time_data`'s dict, or `None` for `{}`: no
   * readings at all, or none at the subject's parity.
   */
  function TimeStatsOf(pgn: string, color: Color, criticalThreshold: real): Option<TimeStats> {
    var ts := AllClockTimes(pgn);
    var ps := PlayerTimes(ts, color);
    if ts == [] || ps == [] then None
    else Some(TimeStats(ts, ps[|ps| - 1], Count(ps, UnderPressure), PhaseAverages(ps), TimingOf(ps, criticalThreshold)))
  }

  /** The conversion loop of `_extract_time_data`: `time_data`, one entry per reading. */
  method ConvertClocks(clocks: seq<PgnScan.Clock>) returns (timeData: seq<real>)
    ensures timeData == ClockValues(clocks)
  {
    timeData := [];
    for i := 0 to |clocks|
      invariant timeData == ClockValues(clocks[..i])
    {
      timeData := timeData + [PgnScan.ClockSeconds(clocks[i])];
    }
    assert clocks[..|clocks|] == clocks;
  }

  /** The critical-move loop of `_extract_time_data`: every move that passes the test, in move order. */
  method FindCriticalMoves(playerTimes: seq<real>, avg: real, criticalThreshold: real) returns (critical: seq<CriticalMove>)
    requires |playerTimes| > 1
    ensures critical == CriticalMoves(playerTimes, avg, criticalThreshold, |playerTimes| - 1)
  {
    var timeDiffs := Diffs(playerTimes);
    critical := [];
    for i := 0 to |timeDiffs|
      invariant critical == CriticalMoves(playerTimes, avg, criticalThreshold, i)
    {
      var diff := timeDiffs[i];
      assert diff == playerTimes[i] - playerTimes[i + 1];
      critical := CheckMove(playerTimes, avg, criticalThreshold, i, diff, critical);
    }
  }

  /** One pass of the critical-move loop: the move from reading `i` is recorded when it passes the test. */
  method CheckMove(playerTimes: seq<real>, avg: real, criticalThreshold: real, i: nat, diff: real, critical: seq<CriticalMove>)
    returns (critical': seq<CriticalMove>)
    requires i + 1 < |playerTimes| && diff == playerTimes[i] - playerTimes[i + 1]
    requires critical == CriticalMoves(playerTimes, avg, criticalThreshold, i)
    ensures critical' == CriticalMoves(playerTimes, avg, criticalThreshold, i + 1)
  {
    critical' := critical;
    if IsCritical(diff, avg, playerTimes[i + 1], criticalThreshold) {
      critical' := critical' + [CriticalMove(i + 1, diff, playerTimes[i])];
    }
  }

  /** `_extract_time_data`: the readings converted, the subject's share sliced out, the statistics assembled. */
  method ExtractTimeData(pgn: string, color: Color, criticalThreshold: real) returns (r: Option<TimeStats>)
    ensures r == TimeStatsOf(pgn, color, criticalThreshold)
  {
    var clocks := PgnScan.ClockMatches(pgn, 0);
    if clocks == [] {
      return None;
    }
    var timeData := ConvertClocks(clocks);
    var playerTimes := PlayerTimes(timeData, color);
    if playerTimes == [] {
      return None;
    }
    var timing: Option<MoveTiming> := None;
    if |playerTimes| > 1 {
      var avg := AvgTimePerMove(playerTimes);
      var critical := FindCriticalMoves(playerTimes, avg, criticalThreshold);
      timing := Some(MoveTiming(Take(critical, 5), avg));
    }
    r := Some(TimeStats(timeData, playerTimes[|playerTimes| - 1], Count(playerTimes, UnderPressure),
                        PhaseAverages(playerTimes), timing));
  }

  /** `_extract_time_data` returns `{}` exactly when there are no readings, or only White's single reading and the subject is Black. */
  lemma NoTimeStats(pgn: string, color: Color, criticalThreshold: real)
    ensures TimeStatsOf(pgn, color, criticalThreshold).None? <==>
      |PgnScan.ClockMatches(pgn, 0)| == 0 || (color == Black && |PgnScan.ClockMatches(pgn, 0)| == 1)
  {
    var ts := AllClockTimes(pgn);
    if |ts| >= 1 && color == White {
      ParityReading(ts, color, 0);
    }
    if |ts| >= 2 && color == Black {
      ParityReading(ts, color, 1);
    }
  }

  /**
   * What a non-empty time dict holds: every reading converted, the subject's
   * last reading as `final_time`, at most one pressure move per reading of the
   * subject, and move timing exactly when the subject has two readings or more.
   */
  lemma TimeStatsFacts(pgn: string, color: Color, criticalThreshold: real)
    requires TimeStatsOf(pgn, color, criticalThreshold).Some?
    ensures SubjectTimes(pgn, color) != []
    ensures TimeStatsOf(pgn, color, criticalThreshold).value.timeData == AllClockTimes(pgn)
    ensures TimeStatsOf(pgn, color, criticalThreshold).value.finalTime == SubjectTimes(pgn, color)[|SubjectTimes(pgn, color)| - 1]
    ensures TimeStatsOf(pgn, color, criticalThreshold).value.timePressureMoves <= |SubjectTimes(pgn, color)|
    ensures TimeStatsOf(pgn, color, criticalThreshold).value.timing == TimingOf(SubjectTimes(pgn, color), criticalThreshold)
    ensures TimeStatsOf(pgn, color, criticalThreshold).value.timing.Some? <==> |SubjectTimes(pgn, color)| >= 2
  {
  }

  /** From two readings on, the average time per move is the total time spent over the number of moves. */
  lemma AverageTelescopes(ps: seq<real>)
    requires |ps| >= 2
    ensures AvgTimePerMove(ps) * (|ps| - 1) as real == ps[0] - ps[|ps| - 1]
  {
    var ds := Diffs(ps);
    assert |ds| == |ps| - 1;
    var avg := AvgTimePerMove(ps);
    assert avg == Mean(ds);
    MeanScales(ds);
    assert IsMeanOf(avg, Total(ds), |ds|);
    DiffsTelescope(ps);
    MeanTimesCount(avg, Total(ds), |ds|, ps[0] - ps[|ps| - 1]);
  }

  /** A mean times the number of values is their total, whatever the total is written as. */
  lemma MeanTimesCount(avg: real, total: real, n: nat, spent: real)
    requires IsMeanOf(avg, total, n) && total == spent
    ensures avg * n as real == spent
  {
  }

  /** At most five critical moves are kept, each of which passes the critical-move test. */
  lemma CriticalMovesKept(ps: seq<real>, criticalThreshold: real)
    requires |ps| >= 2
    ensures TimingOf(ps, criticalThreshold).Some?
    ensures |TimingOf(ps, criticalThreshold).value.criticalMoves| <= 5
    ensures forall k :: 0 <= k < |TimingOf(ps, criticalThreshold).value.criticalMoves| ==>
      SoundCritical(TimingOf(ps, criticalThreshold).value.criticalMoves[k], ps,
                    TimingOf(ps, criticalThreshold).value.avgTimePerMove, criticalThreshold)
  {
    var avg := AvgTimePerMove(ps);
    var cm := CriticalMoves(ps, avg, criticalThreshold, |ps| - 1);
    CriticalMovesExact(ps, avg, criticalThreshold, |ps| - 1);
    var kept := Take(cm, 5);
    assert TimingOf(ps, criticalThreshold) == Some(MoveTiming(kept, avg));
    assert forall k :: 0 <= k < |kept| ==> kept[k] == cm[k];
  }

  // ---------------------------------------------------------------------------
  // Piece activity, trades and tactics
  // ---------------------------------------------------------------------------

  /** `d[k] += 1` on a `defaultdict(int)`. */
  function Bump(d: map<char, nat>, k: char): (r: map<char, nat>)
    ensures k in r && r[k] == (if k in d then d[k] else 0) + 1
    ensures forall c :: c != k ==> (c in r <==> c in d) && (c in d ==> r[c] == d[c])
  {
    d[k := (if k in d then d[k] else 0) + 1]
  }

  /** The key `_analyze_piece_activity` counts a move under: its piece letter, `P` for a pawn move that is not a capture, none otherwise. */
  function PieceKey(move: string): Option<char>
    requires move != []
  {
    if move[0] in "NBRQK" then Some(move[0])
    else if IsFile(move[0]) && 'x' !in move then Some('P')
    else None
  }

  /** The move is counted under `c`. */
  predicate MovesPiece(move: string, c: char) {
    move != [] && PieceKey(move) == Some(c)
  }

  /** The number of moves counted under `c`. */
  function PieceCount(moves: seq<string>, c: char): nat {
    Count(moves, (m: string) => MovesPiece(m, c))
  }

  /** The tally `_analyze_piece_activity` builds, move by move. */
  function PieceTally(moves: seq<string>): map<char, nat>
    requires forall k :: 0 <= k < |moves| ==> moves[k] != []
  {
    if moves == [] then map[]
    else
      var init := PieceTally(moves[..|moves| - 1]);
      match PieceKey(moves[|moves| - 1])
      case Some(c) => Bump(init, c)
      case None => init
  }

  /** The tally holds, for every letter that occurs, the number of moves counted under it, and no other key. */
  lemma {:induction false} PieceTallyCounts(moves: seq<string>)
    requires forall k :: 0 <= k < |moves| ==> moves[k] != []
    ensures forall c :: c in PieceTally(moves) <==> PieceCount(moves, c) > 0
    ensures forall c :: c in PieceTally(moves) ==> PieceTally(moves)[c] == PieceCount(moves, c)
    ensures forall c :: c in PieceTally(moves) ==> c in "NBRQKP"
  {
    if moves != [] {
      var init := moves[..|moves| - 1];
      PieceTallyCounts(init);
      forall c
        ensures PieceCount(moves, c) == PieceCount(init, c) + (if MovesPiece(moves[|moves| - 1], c) then 1 else 0)
      {
      }
    }
  }

  /** `_analyze_piece_activity`: the tally built by the loop over the moves. */
  method AnalyzePieceActivity(moves: seq<string>) returns (pieceMoves: map<char, nat>)
    requires forall k :: 0 <= k < |moves| ==> moves[k] != []
    ensures pieceMoves == PieceTally(moves)
  {
    pieceMoves := map[];
    for i := 0 to |moves|
      invariant pieceMoves == PieceTally(moves[..i])
    {
      var move := moves[i];
      assert moves[..i + 1][..i] == moves[..i];
      if move[0] in "NBRQK" {
        pieceMoves := Bump(pieceMoves, move[0]);
      } else if IsFile(move[0]) && 'x' !in move {
        pieceMoves := Bump(pieceMoves, 'P');
      }
    }
    assert moves[..|moves|] == moves;
  }

  /** `'x' in move`. */
  predicate IsCapture(move: string) {
    'x' in move
  }

  /** The index of the first `x` of a capture. */
  function FirstX(move: string): (k: nat)
    requires 'x' in move
    ensures k < |move| && move[k] == 'x'
    ensures forall j :: 0 <= j < k ==> move[j] != 'x'
  {
    if move[0] == 'x' then 0
    else
      assert 'x' in move[1..] by {
        var j :| 0 <= j < |move| && move[j] == 'x';
        assert move[1..][j - 1] == 'x';
      }
      1 + FirstX(move[1..])
  }

  /**
   * The "captured piece" of a capture: the first character of
   * `move.split('x')[1]` when there is one and it is a piece letter, else `P`.
   */
  function CapturedPiece(move: string): (p: char)
    requires IsCapture(move)
    ensures p in "NBRQKpnbrqkP"
  {
    var k := FirstX(move);
    if k + 1 < |move| && move[k + 1] in "NBRQKpnbrqk" then move[k + 1] else 'P'
  }

  /**
   * In SAN a capture's `x` is followed by the target square, so the "captured
   * piece" is `b` when the target is on the b-file and `P` otherwise: never `Q`.
   */
  lemma SanCapturePiece(move: string)
    requires IsCapture(move)
    requires FirstX(move) + 1 < |move| && IsFile(move[FirstX(move) + 1])
    ensures CapturedPiece(move) == (if move[FirstX(move) + 1] == 'b' then 'b' else 'P')
    ensures CapturedPiece(move) != 'Q'
  {
  }

  /** Move `i` (0-based, White first) was played by the subject. */
  predicate SubjectsMove(i: nat, color: Color) {
    (i % 2 == 0 && color == White) || (i % 2 == 1 && color == Black)
  }

  /** The counters `_analyze_trades` builds, move by move. */
  function TradesOf(moves: seq<string>, color: Color): Trades {
    if moves == [] then Trades(0, map[], false)
    else
      var i := |moves| - 1;
      var move := moves[i];
      var t := TradesOf(moves[..i], color);
      if IsCapture(move) && SubjectsMove(i, color) then
        if move[0] in "NBRQK" then
          var p := CapturedPiece(move);
          Trades(t.tradesInitiated + 1, Bump(t.pieceTrades, p), t.queenTrade || p == 'Q')
        else Trades(t.tradesInitiated + 1, t.pieceTrades, t.queenTrade)
      else t
  }

  /**
   * The subject initiates at most as many trades as there are captures; the
   * queen flag is set exactly when `Q` was tallied; only captured-piece
   * letters are tallied.
   */
  lemma {:induction false} TradesFacts(moves: seq<string>, color: Color)
    ensures TradesOf(moves, color).tradesInitiated <= Count(moves, IsCapture)
    ensures TradesOf(moves, color).queenTrade <==> 'Q' in TradesOf(moves, color).pieceTrades
    ensures forall c :: c in TradesOf(moves, color).pieceTrades ==> c in "NBRQKpnbrqkP"
  {
    if moves != [] {
      TradesFacts(moves[..|moves| - 1], color);
    }
  }

  /** `_analyze_trades`: the counters built by the loop over the moves. */
  method AnalyzeTrades(moves: seq<string>, color: Color) returns (trades: Trades)
    ensures trades == TradesOf(moves, color)
  {
    var tradesInitiated := 0;
    var pieceTrades: map<char, nat> := map[];
    var queenTrade := false;
    for i := 0 to |moves|
      invariant Trades(tradesInitiated, pieceTrades, queenTrade) == TradesOf(moves[..i], color)
    {
      var move := moves[i];
      assert moves[..i + 1][..i] == moves[..i];
      if IsCapture(move) {
        if SubjectsMove(i, color) {
          tradesInitiated := tradesInitiated + 1;
          if move[0] in "NBRQK" {
            var captured := CapturedPiece(move);
            pieceTrades := Bump(pieceTrades, captured);
            if captured == 'Q' {
              queenTrade := true;
            }
          }
        }
      }
    }
    assert moves[..|moves|] == moves;
    trades := Trades(tradesInitiated, pieceTrades, queenTrade);
  }

  /** No line break strictly between positions `i` and `j` (what `.*` may cross). */
  predicate NoBreakBetween(t: string, i: int, j: int)
    requires 0 <= i <= j <= |t|
  {
    forall k :: i < k < j ==> t[k] != '\n'
  }

  /** `re.search(a + '.*' + b, t)` for single characters `a` and `b`. */
  predicate Follows(t: string, a: char, b: char) {
    exists i, j :: 0 <= i < j < |t| && t[i] == a && t[j] == b && NoBreakBetween(t, i, j)
  }

  /** `re.search(r'[NBRQ][a-h]\d.*\+', t)`. */
  predicate DiscoveredPattern(t: string) {
    exists i, j :: 0 <= i && i + 3 <= j < |t| && t[i] in "NBRQ" && IsFile(t[i + 1]) && IsDigit(t[i + 2])
      && t[j] == '+' && NoBreakBetween(t, i + 2, j)
  }

  /** `re.search(r'[RQ].*[18]\+', t)`. */
  predicate BackRankPattern(t: string) {
    exists i, j :: 0 <= i < j && j + 1 < |t| && t[i] in "RQ" && t[j] in "18" && t[j + 1] == '+'
      && NoBreakBetween(t, i, j)
  }

  /** `_detect_tactical_patterns` on the moves joined by spaces. */
  function TacticsOf(moves: seq<string>): Tactics {
    var t := Join(moves, " ");
    Tactics(Follows(t, '+', 'x') || Follows(t, 'x', '+'), DiscoveredPattern(t), BackRankPattern(t))
  }

  /** Without line breaks the fork patterns reduce to: the text has both a `+` and an `x`. */
  lemma ForksWithoutBreaks(t: string)
    requires '\n' !in t
    ensures Follows(t, '+', 'x') || Follows(t, 'x', '+') <==> '+' in t && 'x' in t
  {
    if '+' in t && 'x' in t {
      var i :| 0 <= i < |t| && t[i] == '+';
      var j :| 0 <= j < |t| && t[j] == 'x';
      if i < j {
        assert NoBreakBetween(t, i, j);
      } else {
        assert NoBreakBetween(t, j, i);
      }
    }
  }

  /** For parsed moves `forks` is set exactly when some move gives check and some move captures. */
  lemma ForksOfParsedMoves(moves: seq<string>)
    requires forall k :: 0 <= k < |moves| ==> PgnScan.SpaceFree(moves[k])
    ensures TacticsOf(moves).forks <==>
      (exists k :: 0 <= k < |moves| && '+' in moves[k]) && (exists k :: 0 <= k < |moves| && 'x' in moves[k])
  {
    var t := Join(moves, " ");
    JoinChars(moves, " ", '\n');
    assert IsSpace('\n');
    forall w | w in moves
      ensures '\n' !in w
    {
      var k :| 0 <= k < |moves| && moves[k] == w;
    }
    ForksWithoutBreaks(t);
    JoinChars(moves, " ", '+');
    JoinChars(moves, " ", 'x');
    if exists k :: 0 <= k < |moves| && '+' in moves[k] {
      var k :| 0 <= k < |moves| && '+' in moves[k];
      JoinKeepsChars(moves, " ", k, '+');
    }
    if exists k :: 0 <= k < |moves| && 'x' in moves[k] {
      var k :| 0 <= k < |moves| && 'x' in moves[k];
      JoinKeepsChars(moves, " ", k, 'x');
    }
    if '+' in t {
      var w :| w in moves && '+' in w;
      var k :| 0 <= k < |moves| && moves[k] == w;
    }
    if 'x' in t {
      var w :| w in moves && 'x' in w;
      var k :| 0 <= k < |moves| && moves[k] == w;
    }
  }

  // ---------------------------------------------------------------------------
  // The whole parse
  // ---------------------------------------------------------------------------

  /** The fields `parse_game` subscripts are all present. */
  predicate HasRequiredFields(g: RawGame, username: string) {
    g.url.Some? && HasColorFields(g, username) && g.pgn.Some?
  }

  /** The moves of a parsed PGN are non-empty tokens without whitespace. */
  lemma ExtractedMovesNonEmpty(pgn: string)
    ensures forall k :: 0 <= k < |PgnScan.ExtractMoves(pgn)| ==>
      PgnScan.ExtractMoves(pgn)[k] != [] && PgnScan.SpaceFree(PgnScan.ExtractMoves(pgn)[k])
  {
    PgnScan.ExtractedMovesWellFormed(pgn);
  }

  /** `parse_game`: every key of the fact sheet, or the failure a missing field raises. */
  function ParseGameSpec(g: RawGame, username: string, localTime: int -> int,
                         categories: seq<TimeCategory>, criticalThreshold: real): Result<ParsedGame, ParseFailure>
  {
    if g.url.None? then Err(MissingField)
    else
      match DeterminePlayerColor(g, username)
      case Err(e) => Err(e)
      case Ok(cd) =>
        if g.pgn.None? then Err(MissingField)
        else
          var pgn := g.pgn.value;
          var moves := PgnScan.ExtractMoves(pgn);
          ExtractedMovesNonEmpty(pgn);
          var date := localTime(g.endTime.GetOr(0));
          var hour := HourOf(date);
          Ok(ParsedGame(
            g.url.value, g.timeClass.GetOr("unknown"), g.rated.GetOr(false), date, cd,
            moves, |moves| / 2, PhaseOf(|moves| / 2),
            ExtractOpening(g.eco), Join(Take(moves, 10), " "),
            AnalyzeTermination(pgn, cd.result),
            WeekdayOf(date), hour, GetTimeOfDay(categories, hour),
            TimeStatsOf(pgn, cd.color, criticalThreshold),
            PieceTally(moves), Count(moves, IsCapture),
            TradesOf(moves, cd.color), TacticsOf(moves)))
  }

  /** `parse_game`: the fact sheet assembled key by key from the helper loops. */
  method ParseGame(g: RawGame, username: string, localTime: int -> int,
                   categories: seq<TimeCategory>, criticalThreshold: real) returns (r: Result<ParsedGame, ParseFailure>)
    ensures r == ParseGameSpec(g, username, localTime, categories, criticalThreshold)
  {
    if g.url.None? {
      return Err(MissingField);
    }
    var colorData := DeterminePlayerColor(g, username);
    if colorData.Err? {
      return Err(colorData.error);
    }
    var cd := colorData.value;
    if g.pgn.None? {
      return Err(MissingField);
    }
    var pgn := g.pgn.value;
    var moves := PgnScan.ParsePgnMoves(pgn);
    ExtractedMovesNonEmpty(pgn);
    var totalMoves := |moves| / 2;
    var date := localTime(g.endTime.GetOr(0));
    var hour := HourOf(date);
    var time := ExtractTimeData(pgn, cd.color, criticalThreshold);
    var pieceActivity := AnalyzePieceActivity(moves);
    var trades := AnalyzeTrades(moves, cd.color);
    r := Ok(ParsedGame(
      g.url.value, g.timeClass.GetOr("unknown"), g.rated.GetOr(false), date, cd,
      moves, totalMoves, PhaseOf(totalMoves),
      ExtractOpening(g.eco), Join(Take(moves, 10), " "),
      AnalyzeTermination(pgn, cd.result),
      WeekdayOf(date), hour, GetTimeOfDay(categories, hour),
      time, pieceActivity, Count(moves, IsCapture), trades, TacticsOf(moves)));
  }

  /** The parse fails exactly when the URL, a colour field or the PGN is missing. */
  lemma ParseFailsExactly(g: RawGame, username: string, localTime: int -> int,
                          categories: seq<TimeCategory>, criticalThreshold: real)
    ensures ParseGameSpec(g, username, localTime, categories, criticalThreshold).Err? <==> !HasRequiredFields(g, username)
  {
  }

  /** A fact sheet is internally consistent: its counts, phase, flags and time keys agree with its moves and clocks. */
  ghost predicate WellFormedGame(p: ParsedGame, pgn: string, criticalThreshold: real) {
    && (forall k :: 0 <= k < |p.moves| ==> PgnScan.KeepToken(p.moves[k]) && PgnScan.SpaceFree(p.moves[k]))
    && 2 * p.totalMoves <= |p.moves| <= 2 * p.totalMoves + 1
    && p.endPhase == PhaseOf(p.totalMoves)
    && p.capturesMade <= |p.moves|
    && p.trades.tradesInitiated <= p.capturesMade
    && (p.trades.queenTrade <==> 'Q' in p.trades.pieceTrades)
    && (forall c :: c in p.pieceActivity ==> c in "NBRQKP")
    && p.hourOfDay < 24
    && p.dayOfWeek in DayNames
    && p.colorData.resultType == SimplifyResult(p.colorData.result)
    && (p.time.None? <==> SubjectTimes(pgn, p.colorData.color) == [])
  }

  /** Every successful parse yields a well-formed fact sheet. */
  lemma ParsedGameWellFormed(g: RawGame, username: string, localTime: int -> int,
                             categories: seq<TimeCategory>, criticalThreshold: real)
    requires ParseGameSpec(g, username, localTime, categories, criticalThreshold).Ok?
    ensures WellFormedGame(ParseGameSpec(g, username, localTime, categories, criticalThreshold).value,
                           g.pgn.value, criticalThreshold)
  {
    var p := ParseGameSpec(g, username, localTime, categories, criticalThreshold).value;
    PgnScan.ExtractedMovesWellFormed(g.pgn.value);
    ExtractedMovesNonEmpty(g.pgn.value);
    PieceTallyCounts(p.moves);
    TradesFacts(p.moves, p.colorData.color);
    var ts := AllClockTimes(g.pgn.value);
    if ts == [] {
      assert PlayerTimes(ts, p.colorData.color) == [];
    }
  }
}
