# chess-player-analytics, modelled in Dafny

The chess-player-analytics project analyses a player's games as returned by an
online chess site. It works in three steps:

1. It turns each raw game record into a fact sheet: colour, result, opening,
   moves, phase, termination, clock readings, piece activity, trades and
   tactical flags.
2. It folds the fact sheets into a bundle of metrics.
3. From the metrics it derives rule-based insights: priorities, strengths,
   recommendations, patterns and rating projections.

This project models that pipeline and proves what it computes. Numbers are
exact reals; no float rounding is modelled. The model is organised as follows:

- `Wrappers`, `Text`, `Tally`, `Grouping`, `Streaks`: shared vocabulary.
  - `Wrappers` holds `Option` and `Result`.
  - `Text` covers ASCII lower-casing, substring search, `join`, `split('/')[-1]` and `replace`.
  - `Tally` covers counts, sums, guarded percentages and means, and Python's stable sort.
  - `Grouping` covers dicts keyed in first-seen order, per-key selections, histograms and `max` over `items()`.
  - `Streaks` covers win and loss runs.
- `PgnScan`: the three regular expressions of the PGN move extraction and the clock regular expression of
  `analyzer/game_parser.py`. Each is written out as a hand-written scanner that follows the regular expression's
  leftmost, greedy matching, together with the flattening loop.
- `GameParser`: `GameParser.parse_game` and its helpers. A missing dict key becomes an `Err` value.
- `Metrics`, `ExchangeMetrics`, `TrendMetrics`, `AllMetrics`: the `_calculate_*` methods of
  `analyzer/metrics_calculator.py`, `_get_time_range` and `calculate_all_metrics`.
- `RuleBasedInsights`: `insights/rule_based_insights.py`. The padding loops are methods.
- `ChessAnalyzer`: `analyzer/chess_analyzer.py`.
  - `_get_rating_level` is a loop over the rating levels sorted by threshold.
  - The parse-and-skip loop of `analyze` is a method.
  - `analyze` itself is modelled with the fetched records and the stats rating as inputs. It yields `(None, None)`,
    a report, or the exception it raises.
- `LegacyGame`, `LegacyStats`, `LegacyLosses`, `LegacyMomentum`, `LegacyAnalyzer`: the older, self-contained analyzer
  in `main.py`.
  - Its `ChessAnalyzer` class is a Dafny class. Its `games` and `analyzed_games` lists are `seq` fields.
  - `analyze_all_games` reassigns `analyzed_games`.
  - Every other method is proved equal to a specification function, and the properties are proved about those
    functions.

Behaviour of the code worth noting:

- A subject whose name matches neither side is taken to be Black (analyzer/game_parser.py:79-98).
- Only the fields the code subscripts are required (`GameParser.HasRequiredFields`). For example, White's `result`
  is not needed when the subject played Black.
- All clock readings in the PGN are kept, whatever their number. The subject's readings are every other one.
- When no record parses, `calculate_all_metrics` returns `{}` and `analyze` raises on `metrics['basic_stats']`
  (`ChessAnalyzer.AllRecordsFail`).
- In `main.py`, `calculate_basic_stats` divides by the number of games without a guard, so it raises for an empty
  list (`LegacyStats.BasicStatsSpec`).

Inputs that come from outside are parameters:

- the local-time conversion of `datetime.fromtimestamp` (`localTime: int -> int`, epoch to local wall-clock seconds);
- `CRITICAL_TIME_THRESHOLD`;
- `TIME_CATEGORIES`;
- `RATING_LEVELS`;
- the fetched records;
- the stats rating.

The other constants of `config.py` are Dafny constants with the same values.

## Model

| member | source | states |
|---|---|---|
| PgnScan.StripDelimited | analyzer/game_parser.py:64-65 | deleting `{...}` (or `(...)`) groups never lengthens the text and only keeps characters of the input |
| PgnScan.StripLeavesNoGroup | analyzer/game_parser.py:64-65 | after cleaning, no complete comment or variation group survives |
| PgnScan.StripWithoutOpen | analyzer/game_parser.py:64 | text with no `{` is not changed by the comment substitution |
| PgnScan.StripKeepsPlainPrefix | analyzer/game_parser.py:64 | the text before the first `{` survives the substitution unchanged |
| PgnScan.StripDropsGroup | analyzer/game_parser.py:64 | a complete `{...}` group with no other `}` inside is deleted and the text around it is joined |
| PgnScan.DigitRunEnd | analyzer/game_parser.py:68 | greedy `\d+`: every character of the run is a digit and the run stops at a non-digit or the end |
| PgnScan.SpaceRunEnd | analyzer/game_parser.py:68 | greedy `\s*`: every character of the run is whitespace and the run stops at a non-space or the end |
| PgnScan.TokenEnd | analyzer/game_parser.py:68 | greedy `[^\s]+`: the run holds no whitespace and stops at whitespace or the end |
| PgnScan.TokenAt | analyzer/game_parser.py:68 | a captured token is the text up to the next whitespace and contains no whitespace |
| PgnScan.MatchMoveAt | analyzer/game_parser.py:68 | an anchored match of the move pattern ends after its start, its white token is non-empty and neither token holds whitespace |
| PgnScan.MoveMatches | analyzer/game_parser.py:68 | `findall` yields only matches with a non-empty white token and space-free tokens |
| PgnScan.FlattenKeeps | analyzer/game_parser.py:70-75 | every flattened move is a captured token that is non-empty and does not start with `[` |
| PgnScan.ExtractedMovesWellFormed | analyzer/game_parser.py:61-77 | no extracted move is empty, starts with `[` or contains whitespace, so `move[0]` is always defined for the callers |
| PgnScan.ParsePgnMoves | analyzer/game_parser.py:70-77 | the loop yields exactly the flattening of the matches of the cleaned PGN, and every move it keeps is non-empty, does not start with `[` and holds no whitespace |
| PgnScan.FractionAt | analyzer/game_parser.py:150-156 | the fractional digits of a seconds field read as a non-negative fraction |
| PgnScan.MatchClockAt | analyzer/game_parser.py:150-156 | an anchored `[%clk h:mm:ss(.f)]` match starts at `[`, ends after its start and yields a non-negative reading in seconds |
| PgnScan.ClockMatches | analyzer/game_parser.py:150 | every reading found is non-negative |
| PgnScan.NoBracketNoClocks | analyzer/game_parser.py:150-152 | text without a `[` carries no clock readings |
| PgnScan.CleanCommentExample | analyzer/game_parser.py:64 | on `1. e4 {c} e5` the comment is removed and the spaces on both sides stay |
| PgnScan.FirstMoveExample | analyzer/game_parser.py:68 | on `1. e4 e5 2. Nf3 Nc6` the first match captures `e4` and `e5` |
| PgnScan.SecondMoveExample | analyzer/game_parser.py:68 | on the same text the second match captures `Nf3` and `Nc6` |
| PgnScan.MatchesExample | analyzer/game_parser.py:68 | `findall` skips the blank between the matches and finds exactly two |
| PgnScan.FlattenExample | analyzer/game_parser.py:61-77 | `1. e4 e5 2. Nf3 Nc6` parses to the four moves in order |
| PgnScan.CommentBetweenHalfMoves | analyzer/game_parser.py:61-77 | a comment between White's and Black's half-moves does not lose Black's move |
| PgnScan.ClockExample | analyzer/game_parser.py:150-157 | `[%clk 1:02:03.5]` is read as 3723.5 seconds |
| Text.ToLower | analyzer/game_parser.py:127 | lower-casing keeps the length and lower-cases each ASCII letter, position by position |
| Text.ContainsChar | analyzer/game_parser.py:218 | `c in s` for a single character holds exactly when some position of `s` holds `c` |
| Text.JoinChars | analyzer/game_parser.py:240 | every character of a joined text comes from a word or from the separator |
| Text.JoinKeepsChars | analyzer/game_parser.py:240 | every character of every word appears in the joined text |
| Text.LastSegmentStart | analyzer/game_parser.py:122 | the last `/`-segment starts just past the last `/` and holds no `/` |
| Text.ReplaceChar | analyzer/game_parser.py:122 | replacing one character keeps the length; position by position `from` becomes `to` and every other character stays |
| GameParser.SimplifyResult | analyzer/game_parser.py:100-107 | `win` maps to win, the four loss codes to loss, every other code to draw |
| GameParser.DeterminePlayerColor | analyzer/game_parser.py:79-98 | the subject is White exactly when White's name matches case-insensitively, otherwise Black; the sheet takes the subject's result, ratings and opponent from the chosen side; a missing field is an error |
| GameParser.ColorIgnoresCase | analyzer/game_parser.py:81 | the colour decision does not depend on the letter case of the user name |
| GameParser.LowerIdempotent | analyzer/game_parser.py:81 | lower-casing twice is lower-casing once |
| GameParser.PhaseOf | analyzer/game_parser.py:109-116 | opening up to move 15, middlegame up to move 35, endgame after |
| GameParser.PhaseMonotone | analyzer/game_parser.py:109-116 | a longer game never ends in an earlier phase |
| GameParser.PhaseBoundaries | analyzer/game_parser.py:109-116 | 15 is opening, 16 and 35 middlegame, 36 endgame |
| GameParser.ExtractOpening | analyzer/game_parser.py:118-123 | without `eco` the opening is `Unknown`; the name never holds `/` or `-`, and with `eco` it is as long as the URL's last segment |
| GameParser.OpeningOfUrl | analyzer/game_parser.py:122 | an ECO URL ending in `/<slug>` yields the slug with dashes read as spaces |
| GameParser.AnalyzeTermination | analyzer/game_parser.py:125-139 | the first test that holds, in the order checkmate, resignation, time, stalemate, draw, else other |
| GameParser.TerminationIgnoresCase | analyzer/game_parser.py:127 | the movetext tests ignore letter case |
| GameParser.TimeControlHeaderSaysTime | analyzer/game_parser.py:127-133 | a `[TimeControl` header puts `time` into the lower-cased PGN |
| GameParser.HeaderLowersToTime | analyzer/game_parser.py:127 | lower-casing `[TimeControl` at `k` leaves `time` at `k + 1` |
| GameParser.TimeControlMasksLaterEndings | analyzer/game_parser.py:125-139 | with a `TimeControl` header a game that was neither mated nor resigned is always classified `time`: stalemate, draw and other are unreachable |
| GameParser.HourOf | analyzer/game_parser.py:41 | `date.hour` lies in 0..23 |
| GameParser.WeekdayOf | analyzer/game_parser.py:40 | `strftime('%a')` is one of the seven weekday abbreviations |
| GameParser.WeekdayAdvances | analyzer/game_parser.py:40 | each day is one weekday later than the day before |
| GameParser.GetTimeOfDay | analyzer/game_parser.py:141-146 | the name of the first category in insertion order whose half-open range holds the hour, and `Unknown` when none does |
| GameParser.CategoryTail | analyzer/game_parser.py:143-145 | when the first category misses the hour, the first match and the no-match case carry over to the remaining categories |
| GameParser.ClockValues | analyzer/game_parser.py:155-157 | one value per reading, in order: entry `k` is reading `k` converted to seconds |
| GameParser.PlayerTimes | analyzer/game_parser.py:160-163 | the readings at the subject's parity: entry `k` is `time_data[first + 2k]`, and there are exactly as many as such indices |
| GameParser.ParityReading | analyzer/game_parser.py:160-163 | every reading at the subject's parity is among the subject's readings |
| GameParser.Diffs | analyzer/game_parser.py:188 | one difference per consecutive pair, `player_times[i] - player_times[i+1]` |
| GameParser.DiffsTelescope | analyzer/game_parser.py:188 | the differences add up to the first reading minus the last |
| GameParser.CriticalMoves | analyzer/game_parser.py:191-194 | among the first `n` differences at most `n` moves are recorded |
| GameParser.CriticalMovesExact | analyzer/game_parser.py:191-194 | the critical moves are exactly the moves that pass the test, each once, in move order, with the move's difference and clock |
| GameParser.CriticalMoveAdded | analyzer/game_parser.py:193-194 | recording a move that passes the test keeps the list exact one move further |
| GameParser.NoCriticalMoveAdded | analyzer/game_parser.py:193 | passing over a move that fails the test keeps the list exact one move further |
| GameParser.Cap | analyzer/game_parser.py:176-178 | `min(n, limit)` is at most both |
| GameParser.ConvertClocks | analyzer/game_parser.py:154-157 | the conversion loop yields exactly one converted value per reading |
| GameParser.FindCriticalMoves | analyzer/game_parser.py:191-194 | the loop records exactly the critical moves |
| GameParser.CheckMove | analyzer/game_parser.py:192-194 | one pass records the move exactly when it passes the test |
| GameParser.ExtractTimeData | analyzer/game_parser.py:148-199 | the method's dict is the time statistics of the PGN for the subject's colour |
| GameParser.NoTimeStats | analyzer/game_parser.py:151-166 | the dict is `{}` exactly when there are no readings, or only White's single reading and the subject is Black |
| GameParser.TimeStatsFacts | analyzer/game_parser.py:168-197 | a non-empty dict holds every reading, the subject's last reading as `final_time`, at most one pressure move per subject reading, and move timing exactly when the subject has two readings or more |
| GameParser.AverageTelescopes | analyzer/game_parser.py:188-189 | the average time per move times the number of moves is the first reading minus the last |
| GameParser.MeanTimesCount | analyzer/game_parser.py:189 | a mean times its count is the total |
| GameParser.CriticalMovesKept | analyzer/game_parser.py:196 | at most five critical moves are kept, each passes the test |
| GameParser.Bump | analyzer/game_parser.py:206-208 | `d[k] += 1` raises the count of `k` by one and changes no other key |
| GameParser.PieceTallyCounts | analyzer/game_parser.py:201-209 | the tally holds, for every letter that occurs, the number of moves counted under it, and no other key |
| GameParser.AnalyzePieceActivity | analyzer/game_parser.py:201-209 | the counting loop yields the per-letter tally: moves counted under their piece letter, pawn moves without `x` under `P`, no other key |
| GameParser.FirstX | analyzer/game_parser.py:225 | the index of the first `x` of a capture: it holds `x` and no earlier position does |
| GameParser.CapturedPiece | analyzer/game_parser.py:225 | the captured piece is always a piece letter of either case or `P` |
| GameParser.SanCapturePiece | analyzer/game_parser.py:225-229 | in SAN the character after `x` is a file, so the captured piece is `b` or `P` and never `Q` |
| GameParser.TradesFacts | analyzer/game_parser.py:211-235 | the subject initiates at most as many trades as there are captures, the queen flag is set exactly when `Q` was tallied, and only captured-piece letters are tallied |
| GameParser.AnalyzeTrades | analyzer/game_parser.py:211-235 | the loop yields the counters of TradesOf |
| GameParser.ForksWithoutBreaks | analyzer/game_parser.py:243-247 | without line breaks the fork patterns hold exactly when the text has both a `+` and an `x` |
| GameParser.ForksOfParsedMoves | analyzer/game_parser.py:237-247 | for parsed moves `forks` is set exactly when some move gives check and some move captures |
| GameParser.ExtractedMovesNonEmpty | analyzer/game_parser.py:25 | the moves of a parsed PGN are non-empty tokens without whitespace |
| GameParser.ParseGame | analyzer/game_parser.py:10-59 | the fact sheet assembled key by key equals the whole-record specification, including the failure a missing field raises |
| GameParser.ParseFailsExactly | analyzer/game_parser.py:15-25 | the parse fails exactly when the URL, a colour field or the PGN is missing |
| GameParser.ParsedGameWellFormed | analyzer/game_parser.py:10-59 | every successful parse yields a consistent sheet: move count, phase, capture count, flags and time keys agree with its moves and clocks |
| Tally.Filter | analyzer/metrics_calculator.py:56-57 | a comprehension keeps as many elements as satisfy the test, each of which satisfies it and comes from the list |
| Tally.Percent | analyzer/metrics_calculator.py:49 | a guarded percentage is 0 for an empty whole and lies in 0..100 when the part is at most the whole |
| Tally.PercentScales | analyzer/metrics_calculator.py:49 | a percentage of a positive whole times the whole is 100 times the part |
| Tally.AverageScales | analyzer/metrics_calculator.py:41-42 | an average over a positive count times the count is the total |
| Tally.MeanScales | analyzer/game_parser.py:181-189 | a mean of a non-empty list times its length is its sum |
| Tally.MeanBounds | analyzer/game_parser.py:181-183 | the mean of values between two bounds lies between them |
| Tally.Take | analyzer/metrics_calculator.py:175 | `s[:n]` holds the first `min(n, len(s))` elements of `s` |
| Tally.TakeOfSorted | analyzer/metrics_calculator.py:176 | `s[:n]` of a sorted list keeps `min(n, len(s))` entries, and no entry left out must come before one kept |
| Tally.SortBy | analyzer/metrics_calculator.py:170 | the stable sort is a permutation of its input |
| Tally.SortBySorted | analyzer/metrics_calculator.py:170 | under a strict order the stable sort yields a sorted list |
| Tally.InsertSorted | analyzer/metrics_calculator.py:170 | inserting into a sorted list keeps it sorted |
| Tally.CountSplit | analyzer/metrics_calculator.py:56-63 | splitting a list by a test and its negation splits every count over it |
| Grouping.Keys | analyzer/metrics_calculator.py:93-95 | the keys a dict filled from the list inserts, in first-seen order, each once |
| Grouping.KeysExactly | analyzer/metrics_calculator.py:93-95 | a key is listed exactly when some element carries it |
| Grouping.GroupsAt | analyzer/metrics_calculator.py:93-111 | the dict has an entry for exactly the keys that occur, each the fold of the elements carrying it |
| Grouping.GroupFold | analyzer/metrics_calculator.py:87-111 | the `defaultdict` loop yields the keys in first-seen order and, per key, the fold of the elements carrying it |
| Grouping.ValuesInOrder | analyzer/metrics_calculator.py:114 | `items()` lists the values in the order of their keys |
| Grouping.Histogram | insights/rule_based_insights.py:229-233 | a counter's items: one entry per key in first-seen order, with its number of elements |
| Grouping.HistogramTotal | analyzer/metrics_calculator.py:312 | the counts of a termination histogram add up to the number of games |
| Grouping.CountedIsHistogram | analyzer/metrics_calculator.py:312 | counting one key at a time builds the histogram |
| Metrics.ResultPartition | analyzer/metrics_calculator.py:36-38 | every game is exactly one of win, loss, draw |
| Metrics.BasicStatsOf | analyzer/metrics_calculator.py:33-52 | the totals count the games, wins and losses; draws are the rest, wins+losses+draws = total, and the win rate is a percentage |
| Metrics.BasicStatsRatios | analyzer/metrics_calculator.py:41-49 | for a non-empty list the win rate is the share of wins and the two averages are the mean ratings |
| Metrics.ColorsSplitGames | analyzer/metrics_calculator.py:54-83 | the colours split the games, the wins and the losses, and each colour's win rate is a percentage |
| Metrics.TcFoldCounts | analyzer/metrics_calculator.py:93-111 | a time control's counters are the counts and sums over its games |
| Metrics.TimeControlStatsOf | analyzer/metrics_calculator.py:85-123 | the counting loop and the averaging pass yield the per-time-control table |
| Metrics.TimeControlCounts | analyzer/metrics_calculator.py:93-111 | every entry belongs to a time control that occurs; wins+losses+draws = total, time losses are at most losses, checkmates and resignations are distinct games |
| Metrics.TcCounterConsistent | analyzer/metrics_calculator.py:99-111 | the counter of any list of games is internally consistent in the same way |
| Metrics.TimeControlRatios | analyzer/metrics_calculator.py:114-121 | `avg_moves` and `avg_opp_rating` are the means over the time control's games and its win rate is the share of its wins |
| Metrics.OpeningFoldCounts | analyzer/metrics_calculator.py:132-146 | an opening's counters are the counts over its games |
| Metrics.CountOpenings | analyzer/metrics_calculator.py:132-146 | the counting loop yields the openings in first-seen order and each one's counters |
| Metrics.ListOpenings | analyzer/metrics_calculator.py:149-167 | the filtering pass builds the entries of the openings with enough games, in insertion order |
| Metrics.CandidateLinesSnoc | analyzer/metrics_calculator.py:150-167 | one more opening adds its entry exactly when it has at least `MIN_GAMES_FOR_PATTERN` games |
| Metrics.OpeningMetricsOf | analyzer/metrics_calculator.py:125-177 | the loops and the two stable sorts yield the opening metrics |
| Metrics.OpeningOrdersStrict | analyzer/metrics_calculator.py:170-176 | both sort keys are strict orders |
| Metrics.CandidateLinesExactly | analyzer/metrics_calculator.py:150-167 | an entry is built for an opening exactly when it is listed and played at least `MIN_GAMES_FOR_PATTERN` times |
| Metrics.OpeningCounterCounts | analyzer/metrics_calculator.py:132-146 | an opening's results partition its games, its colours partition its games, and its colour wins partition its wins |
| Metrics.OpeningsListExactly | analyzer/metrics_calculator.py:149-174 | `openings_list` holds an entry exactly for the openings played at least `MIN_GAMES_FOR_PATTERN` times, with that opening's counts |
| Metrics.OpeningMetricsOrdered | analyzer/metrics_calculator.py:169-177 | `openings_list` is sorted by games then win rate, `top_openings` is its first five, `worst_openings` holds the `min(5, n)` entries of lowest win rate in ascending order, with no entry left out rated below one kept, and `unique_openings` counts every opening played |
| Metrics.LowestRatesKept | analyzer/metrics_calculator.py:176 | the first five of the list sorted by win rate are `min(5, n)` of its entries, in ascending order, and no entry left out is rated below one kept |
| Metrics.PhaseFoldCounts | analyzer/metrics_calculator.py:193-200 | a phase's counters are its games, wins and losses |
| Metrics.PhaseMetricsOf | analyzer/metrics_calculator.py:179-221 | the counting loop, the rate pass and the reach counts yield the phase metrics |
| Metrics.PhasesPartition | analyzer/metrics_calculator.py:193-195 | the games of the three phases add up to all games |
| Metrics.ReachMatchesPhases | analyzer/metrics_calculator.py:187-191 | when each game's phase is the one its length gives, the games past move 15 (35) are those ending in a later phase |
| Metrics.PhaseMetricsFacts | analyzer/metrics_calculator.py:179-221 | the phase counts sum to the games, reach counts satisfy endgame ≤ middlegame ≤ opening = all games, and every rate is a percentage |
| Metrics.TallyFoldCounts | analyzer/metrics_calculator.py:496-501 | a `{games, wins}` counter holds the number of games and of wins |
| Metrics.TimeMetricsOf | analyzer/metrics_calculator.py:223-276 | the collecting loop, the means and the counts yield the time metrics |
| Metrics.SamplesFacts | analyzer/metrics_calculator.py:236-245 | every phase sample is positive and there is one per-move sample per game with move timing |
| Metrics.PositiveSamplesMean | analyzer/metrics_calculator.py:253-262 | the mean of positive samples is positive, or 0 when there are none |
| Metrics.TimeMetricsFacts | analyzer/metrics_calculator.py:223-276 | the time-loss and pressure counts are at most the games, the three rates are percentages, and the per-phase averages are never negative |
| Metrics.CriticalSamplesSplit | analyzer/metrics_calculator.py:243-245 | every game with move timing contributes exactly one per-move sample, to one side |
| Metrics.PatternMetricsOf | analyzer/metrics_calculator.py:278-324 | the loop yields the win and loss patterns and the quick losses |
| Metrics.PatternsMeaning | analyzer/metrics_calculator.py:312-317 | a side holds the termination histogram of its games, their lengths and rating differences in order, and one remaining time per game with time data |
| Metrics.QuickLossesFacts | analyzer/metrics_calculator.py:301-308 | the quick losses are the losses shorter than `QUICK_LOSS_MOVES`, so at most the losses |
| Metrics.PatternMetricsFacts | analyzer/metrics_calculator.py:278-324 | each side's termination counts add up to its games, the lengths list one entry per win, quick losses are at most the losses, and the quick-loss rate is a percentage |
| Metrics.RangeOf | analyzer/metrics_calculator.py:421-429 | the four buckets `<600`, `600-700`, `700-800`, `800+`, each holding exactly its ratings |
| Metrics.RangeCountSnoc | analyzer/metrics_calculator.py:431-434 | one more game moves only the counter of its bucket |
| Metrics.CountsRangesSnoc | analyzer/metrics_calculator.py:431-434 | counting a game in its own bucket keeps the counters exact |
| Metrics.AddOpponent | analyzer/metrics_calculator.py:433-439 | adding a game keeps the win and loss rating sums and counts exact |
| Metrics.AddToRange | analyzer/metrics_calculator.py:431-434 | counting a game in its bucket keeps the counters exact |
| Metrics.NothingCountedYet | analyzer/metrics_calculator.py:406-416 | the initial table and totals are exact for no games |
| Metrics.CountsRangesAre | analyzer/metrics_calculator.py:406-439 | exact bucket counters are the bucket counts of the games |
| Metrics.CountOpponents | analyzer/metrics_calculator.py:418-439 | the loop counts each game in its bucket and sums the opponent ratings of wins and of losses |
| Metrics.OpponentMetricsOf | analyzer/metrics_calculator.py:403-452 | the loop and the rate pass yield the opponent metrics |
| Metrics.RangesPartition | analyzer/metrics_calculator.py:421-431 | the four buckets partition the games |
| Metrics.OpponentMetricsFacts | analyzer/metrics_calculator.py:403-452 | the table has the four buckets, their games add up to all games, each bucket counts its games with wins ≤ games and a percentage win rate, and the two averages are the means over wins and over losses |
| Metrics.SessionEntry | analyzer/metrics_calculator.py:519-528 | a day adds at most one rate, exactly when it has at least three games and its length picks the bucket (over ten games: `20+`, else `5-10`), and the rate is a percentage |
| Metrics.SessionRatesSnoc | analyzer/metrics_calculator.py:518-528 | one more day adds its session, if it is one, to the bucket its length picks |
| Metrics.HourLinesSnoc | analyzer/metrics_calculator.py:504-507 | one more hour adds its entry exactly when it has at least five games |
| Metrics.CountHours | analyzer/metrics_calculator.py:496-501 | the per-hour loop yields the hours in first-seen order and each hour's tally |
| Metrics.ListHours | analyzer/metrics_calculator.py:503-507 | the pass lists the hours with at least five games in insertion order |
| Metrics.BestHoursOf | analyzer/metrics_calculator.py:495-509 | the counting loop, the listing pass and the sort yield the ranked hours |
| Metrics.AddSession | analyzer/metrics_calculator.py:519-528 | one day's games add their rate to the bucket their length picks |
| Metrics.DailyGames | analyzer/metrics_calculator.py:512-515 | the per-day grouping yields the days in first-seen order and each day's games |
| Metrics.SessionBuckets | analyzer/metrics_calculator.py:517-528 | the session loop yields both buckets' rates |
| Metrics.SessionsOf | analyzer/metrics_calculator.py:511-528 | the grouping and the session loop yield the days and both buckets |
| Metrics.PsychologicalMetricsOf | analyzer/metrics_calculator.py:454-548 | the sort, the streak and recovery loops, the hour ranking and the sessions yield the psychological metrics |
| Metrics.HourLinesExactly | analyzer/metrics_calculator.py:503-507 | an hour gets an entry exactly when it is listed and has at least five games, with its counts |
| Metrics.BestHoursFacts | analyzer/metrics_calculator.py:503-542 | `best_hours` holds the `min(3, n)` best-rated of the n ranked hours, by descending win rate, with no ranked hour left out rated above one kept; each was played at least five times with its game count and a percentage; `best_hour` is the first of them, 20 when there is none |
| Metrics.TopHoursSorted | analyzer/metrics_calculator.py:509-541 | the first three ranked hours come best win rate first |
| Metrics.TopHoursCounted | analyzer/metrics_calculator.py:503-541 | each of them was played at least five times and holds its game count and a percentage |
| Metrics.RankedHourEntry | analyzer/metrics_calculator.py:503-509 | every ranked entry is an hour played at least five times, with its game count and a percentage |
| Metrics.SessionRatesBounded | analyzer/metrics_calculator.py:519-528 | every session rate is a percentage |
| Metrics.SessionRatesFacts | analyzer/metrics_calculator.py:531-546 | the session win rates are percentages, whether measured or the defaults 65 and 24.4 |
| Metrics.SessionDaysExactly | analyzer/metrics_calculator.py:512-547 | a day is a session day exactly when some game was played on it |
| Metrics.StreakBounds | analyzer/metrics_calculator.py:459-481 | no win or loss run of the date-ordered results that the loop records is longer than the maximum it reports |
| Metrics.StreaksAttained | analyzer/metrics_calculator.py:459-481 | a positive maximum streak is the length of a run the loop records |
| Streaks.LongestHasLength | analyzer/metrics_calculator.py:475-481 | the longest recorded run, when positive, is the length of some recorded run |
| Streaks.RunEndingAt | analyzer/metrics_calculator.py:470-481 | the run of a result ending at a game is positive exactly when that game has the result, and at most the games so far |
| Streaks.RunIsBlock | analyzer/metrics_calculator.py:470-481 | the run is a block of that result, preceded by the start or by a different result |
| Streaks.BlockWithinRun | analyzer/metrics_calculator.py:470-481 | any block of a result ending at a game is no longer than the run counted there |
| Streaks.LongestBoundsStreaks | analyzer/metrics_calculator.py:475-481 | no recorded streak is longer than the maximum |
| Streaks.LongestIsAttained | analyzer/metrics_calculator.py:475-481 | a positive maximum is the length of some recorded streak |
| Streaks.MaxStreaks | analyzer/metrics_calculator.py:459-481 | the loop's two maxima are the longest recorded win and loss runs: draws break runs and the first game's own value is never recorded |
| Streaks.AfterLossCounts | analyzer/metrics_calculator.py:484-491 | the games after a loss are the losses before the last game, and the wins among them are no more |
| Streaks.Recovery | analyzer/metrics_calculator.py:484-491 | the loop counts the games after a loss and the wins among them |
| Streaks.RecoveryRate | analyzer/metrics_calculator.py:493 | the recovery rate is a percentage, 0 when no game follows a loss |
| TrendMetrics.GetTimeRange | analyzer/metrics_calculator.py:705-713 | the four named times of day map to their hour spans and every other name to `""` |
| TrendMetrics.CountTrend | analyzer/metrics_calculator.py:664-669 | the counting loop yields the keys in first-seen order and each key's tally |
| TrendMetrics.ListTrend | analyzer/metrics_calculator.py:672-679 | the pass turns each counter with games into its entry, in key order |
| TrendMetrics.TrendLinesSnoc | analyzer/metrics_calculator.py:673-679 | one more key adds its entry exactly when it has games |
| TrendMetrics.TrendLinesOf | analyzer/metrics_calculator.py:664-679 | the counting loop and the listing loop yield the table over the keys in first-seen order |
| TrendMetrics.AddHours | analyzer/metrics_calculator.py:690-698 | every time-of-day entry gets its hour span |
| TrendMetrics.PerformanceTrendsOf | analyzer/metrics_calculator.py:661-703 | the two tables are built by the loops |
| TrendMetrics.TrendLinesMeaning | analyzer/metrics_calculator.py:664-679 | every key that occurs gets exactly one entry, in key order, holding its counts |
| TrendMetrics.TrendEntry | analyzer/metrics_calculator.py:673-679 | a key that occurs has games, and its entry holds its games, wins and percentage |
| TrendMetrics.PerformanceTrendsFacts | analyzer/metrics_calculator.py:661-703 | both tables have one entry per weekday (time of day) that occurs, in first-seen order, with its counts and win rate; a time-of-day entry carries its hour span |
| TrendMetrics.KeysOccur | analyzer/metrics_calculator.py:664-669 | every listed key occurs among the games |
| TrendMetrics.EveryDayListed | analyzer/metrics_calculator.py:664-698 | every game's weekday and time of day have an entry |
| TrendMetrics.KeyListed | analyzer/metrics_calculator.py:664-679 | the key of any game has an entry in its table |
| ExchangeMetrics.ImbalanceName | analyzer/metrics_calculator.py:593 | the display name is as long as the key |
| ExchangeMetrics.QueenTradesName | analyzer/metrics_calculator.py:593 | `queen_trades` is displayed as `Queen Trades` |
| ExchangeMetrics.QueenTradesTitled | analyzer/metrics_calculator.py:593 | `"queen trades".title()` is `Queen Trades` |
| ExchangeMetrics.CountQueenTrades | analyzer/metrics_calculator.py:573-577 | the loop counts the games with a queen trade and the wins among them |
| ExchangeMetrics.ClassifyImbalances | analyzer/metrics_calculator.py:587-600 | the good list holds the rows with at least three games and a win rate of 60 or more, the bad list those with 40 or less, in table order |
| ExchangeMetrics.PieceExchangeMetricsOf | analyzer/metrics_calculator.py:550-611 | the loops yield the piece-exchange metrics |
| ExchangeMetrics.QueenTallyCounts | analyzer/metrics_calculator.py:573-577 | the queen counter holds the number of games with a queen trade and the wins among them |
| ExchangeMetrics.OnlyQueenRowJudged | analyzer/metrics_calculator.py:566-591 | only the queen row is ever counted, so it is the only row that can reach three games |
| ExchangeMetrics.FirstRowOnly | analyzer/metrics_calculator.py:590-600 | filtering four rows of which only the first can pass keeps at most that one |
| ExchangeMetrics.TradeFrequencyFacts | analyzer/metrics_calculator.py:556-563 | the trade frequencies are percentages, 0 without games ahead (behind) |
| ExchangeMetrics.ImbalanceListsFacts | analyzer/metrics_calculator.py:586-610 | the good and bad lists hold at most the queen row between them, as `Queen Trades`, with the rate that put it there |
| ExchangeMetrics.QueenRowJudged | analyzer/metrics_calculator.py:586-600 | the judged lists hold at most the queen row between them |
| ExchangeMetrics.QueenRowOnly | analyzer/metrics_calculator.py:590-600 | judging four rows of which only the queen row can pass lists at most that row, with the rate that passed |
| ExchangeMetrics.FirstRowListed | analyzer/metrics_calculator.py:590-600 | listing four rows of which only the first can pass lists at most that one |
| ExchangeMetrics.AvgTradesScales | analyzer/metrics_calculator.py:552-553 | the average trades per game is the mean of `trades_initiated` |
| ExchangeMetrics.LastThree | analyzer/metrics_calculator.py:632 | `moves[-3:]` holds the last `min(3, len)` moves in order |
| ExchangeMetrics.TickAllAppend | analyzer/metrics_calculator.py:620-637 | ticking two lists in turn is ticking their concatenation |
| ExchangeMetrics.CountedAppend | analyzer/metrics_calculator.py:620-637 | ticking a counted list further counts the longer list |
| ExchangeMetrics.TickAllWhen | analyzer/metrics_calculator.py:624-637 | ticking a conditional name is ticking under its condition |
| ExchangeMetrics.TickThree | analyzer/metrics_calculator.py:624-637 | three conditional ticks in turn |
| ExchangeMetrics.TicksCountEvents | analyzer/metrics_calculator.py:620-637 | a counter fold whose step ticks each game's events counts all the events in first-seen order |
| ExchangeMetrics.TicksAreEvents | analyzer/metrics_calculator.py:623-637 | each game's winning and losing ticks are the ticks of its events |
| ExchangeMetrics.TallyTactics | analyzer/metrics_calculator.py:620-641 | one pass ticks a win's tactics, a loss's losing patterns, and counts a loss under 30 moves as a blunder |
| ExchangeMetrics.TacticalMetricsOf | analyzer/metrics_calculator.py:613-659 | the tally loop, the two lists and the blunder rate yield the tactical metrics |
| ExchangeMetrics.EventsSatisfy | analyzer/metrics_calculator.py:620-637 | a property of every event a game produces holds of every event of the list |
| ExchangeMetrics.FrequentLines | analyzer/metrics_calculator.py:644-647 | a line comes from a counter entry with a count of at least two |
| ExchangeMetrics.HistogramEntry | analyzer/metrics_calculator.py:615-637 | the counter holds `(name, count)` exactly when `name` occurs `count` times |
| ExchangeMetrics.PatternListExactly | analyzer/metrics_calculator.py:644-647 | a line is listed exactly when its pattern occurs at least twice among the events, with that count |
| ExchangeMetrics.FilterKeeps | analyzer/metrics_calculator.py:644-647 | an entry that passes the filter is kept |
| ExchangeMetrics.PatternListsSorted | analyzer/metrics_calculator.py:652-653 | both lists are ordered by descending count |
| ExchangeMetrics.TicksCountAllEvents | analyzer/metrics_calculator.py:620-637 | the winning counter counts the winning events and the losing counter the losing events |
| ExchangeMetrics.OccurringNameSatisfies | analyzer/metrics_calculator.py:644-647 | a name that occurs among the events is one the game produces |
| ExchangeMetrics.WhenNamed | analyzer/metrics_calculator.py:624-637 | a conditional tick holds only its name |
| ExchangeMetrics.WinEventsNamed | analyzer/metrics_calculator.py:623-629 | every winning event is one of the three winning tactics |
| ExchangeMetrics.LossEventsNamed | analyzer/metrics_calculator.py:631-637 | every losing event is one of the three losing patterns |
| ExchangeMetrics.WinningPatternsFacts | analyzer/metrics_calculator.py:644-652 | a winning line is listed exactly when its tactic occurs at least twice among the winning events, with that count, and is one of the three tactics |
| ExchangeMetrics.LosingPatternsFacts | analyzer/metrics_calculator.py:646-653 | a losing line is listed exactly when its pattern occurs at least twice among the losing events, with that count, and is one of the three patterns |
| ExchangeMetrics.ShareBounded | analyzer/metrics_calculator.py:649 | a count no larger than `n`, averaged over `n`, lies between 0 and 1 |
| ExchangeMetrics.BlunderRateBounded | analyzer/metrics_calculator.py:640-649 | the blunder rate lies in 0..1 and is the share of games lost in under 30 moves |
| AllMetrics.CalculateAllMetrics | analyzer/metrics_calculator.py:9-31 | every group over the same games; nothing (the empty dict) exactly for no games |
| AllMetrics.MetricsAgree | analyzer/metrics_calculator.py:14-29 | the groups agree on the totals: colours and phases split the games, colours split wins and losses, termination tallies count every win and loss |
| AllMetrics.RangesAgree | analyzer/metrics_calculator.py:14-29 | the four opponent buckets split the games the basic stats count |
| LegacyGame.ClockFactsAgree | main.py:137-154 | `time_data` is set exactly when the PGN has a reading and then holds every reading; `final_time` and `time_pressure_moves` are set exactly when the parser's time dict is non-empty, with the same values; `final_time` implies `time_data` |
| LegacyGame.PressureMovesBounded | main.py:152-154 | `time_pressure_moves` counts at most one move per reading of the subject |
| LegacyGame.AnalysisMatchesParser | main.py:64-170 | the older analysis fails on the same records as `parse_game` and agrees with it on every shared key; `rating_diff` is the opponent's rating minus the subject's |
| LegacyGame.AnalysisFailsExactly | main.py:69-100 | `analyze_single_game` raises exactly when the URL, a colour field or the PGN is missing |
| LegacyGame.AnalyzedSnoc | main.py:177-186 | one more record adds its analysis unless its analysis raises |
| LegacyGame.AnalyzedIsFilter | main.py:172-189 | the loop keeps exactly the analyses of the records whose analysis does not raise, in input order |
| LegacyGame.CompleteRecordsKept | main.py:177-186 | when every record has its fields, every record is kept |
| LegacyAnalyzer.OpeningListOf | main.py:248-272 | the counting loop, with the counter as written, yields the openings in first-seen order and the entries of those played at least three times |
| LegacyAnalyzer.CategorizeEndgame | main.py:508-517 | the category the letter tests give for one endgame |
| LegacyAnalyzer.FileLoss | main.py:443-470 | one pass files a lost game under each list it qualifies for and keeps every list exact |
| LegacyAnalyzer.CollectLosses | main.py:443-470 | the loss loop yields the quick losses, time losses, resignation table and blunder count of the games |
| LegacyAnalyzer.CountTimeControls | main.py:220-225 | the time-control loop yields the table of per-time-control counters |
| LegacyAnalyzer.FileEndgame | main.py:506-517 | one pass appends the endgame to the list of its category and keeps every list exact |
| LegacyAnalyzer.CategorizeEndgames | main.py:498-517 | each category's list holds exactly the endgames of that category, in order |
| LegacyAnalyzer.CountPhase | main.py:392-406 | one pass keeps the per-phase counters and the two reach counts exact |
| LegacyAnalyzer.StepEndPhase | main.py:394-400 | one more game steps the counter of its end phase and leaves the others |
| LegacyAnalyzer.ChessAnalyzer.constructor | main.py:10-16 | a new analyzer holds the user name and no games |
| LegacyAnalyzer.ChessAnalyzer.ParsePgnMoves | main.py:46-62 | the older move extraction returns the same moves as the parser's for every PGN, each non-empty, not starting with `[` and without whitespace |
| LegacyAnalyzer.ChessAnalyzer.ClockFactsFrom | main.py:137-154 | the clock keys of the analysis computed by the loop |
| LegacyAnalyzer.ChessAnalyzer.AnalyzeSingleGame | main.py:64-170 | the analysis of one record, or the failure a missing field raises, exactly when a field is missing |
| LegacyAnalyzer.ChessAnalyzer.BuildAnalysis | main.py:99-170 | the success path assembles the analysis record |
| LegacyAnalyzer.ChessAnalyzer.AnalyzeAllGames | main.py:172-189 | `games` is unchanged and `analyzed_games` becomes the analyses of the records that do not raise, in order; the same list is returned |
| LegacyAnalyzer.ChessAnalyzer.CalculateBasicStats | main.py:205-244 | the method's result is the basic statistics of `analyzed_games`, including the error for an empty list |
| LegacyAnalyzer.ChessAnalyzer.AnalyzeOpenings | main.py:246-288 | the method's result is the opening analysis of `analyzed_games` as the code computes it, and no repertoire entry records a loss |
| LegacyAnalyzer.ChessAnalyzer.AnalyzeGamePhases | main.py:377-432 | the method's result is the phase analysis of `analyzed_games` |
| LegacyAnalyzer.ChessAnalyzer.AnalyzeMistakes | main.py:434-488 | the method's result is the mistake analysis of `analyzed_games` |
| LegacyAnalyzer.ChessAnalyzer.AnalyzeEndgames | main.py:490-539 | the method's result is the endgame analysis of `analyzed_games` |
| LegacyAnalyzer.ChessAnalyzer.AnalyzeMomentum | main.py:541-641 | the method's result is the momentum analysis of `analyzed_games` |
| LegacyStats.AnalysesPhaseConsistent | main.py:102-110 | every analysis has the end phase its move count gives |
| LegacyStats.ResultPartition | main.py:207-210 | every analysis is exactly one of win, loss, draw |
| LegacyStats.ColorPartition | main.py:213-214 | every analysis is White's or Black's |
| LegacyStats.CounterFoldCounts | main.py:220-225 | a `{total, wins}` counter holds the number of games and of wins |
| LegacyStats.BasicStatsSpec | main.py:205-244 | the unguarded rating averages raise exactly for an empty list |
| LegacyStats.BasicStatsFacts | main.py:205-244 | wins, losses and draws count their games and add up to the total, the colours split the games, the rates are percentages, the win rate is the share of wins and the rating averages are the means |
| LegacyStats.TimeControlTableCounts | main.py:220-225 | the table has an entry exactly for the time controls played, holding their games and wins |
| LegacyStats.ResultKeys | main.py:253 | the key of a win is `wins` and of a draw `draws`, but of a loss `losss`, which no counter has |
| LegacyStats.OpeningFoldCounts | main.py:251-258 | the counter as written counts every game, the wins and the draws, but its losses stay 0 |
| LegacyStats.LossesNeverCounted | main.py:253-258 | one lost game is counted as played but not as lost |
| LegacyStats.IntendedOpeningCounts | main.py:251-258 | the corrected counter counts the losses too, so its three result counts add up to the total |
| LegacyStats.CorrectionOnlyLosses | main.py:251-258 | the corrected counter of an opening differs from the written one only in its losses, which it fills in with the lost games |
| LegacyStats.OpeningLinesSnoc | main.py:262-272 | one more opening adds its entry, built from the counter the loop computes, exactly when it was played at least three times |
| LegacyStats.ArgMaxRate | main.py:278 | `max(..., key=win_rate)`: an entry with the highest rate, the first such |
| LegacyStats.ArgMinRate | main.py:279 | `min(..., key=win_rate)`: an entry with the lowest rate, the first such |
| LegacyStats.OpeningLinesExactly | main.py:262-272 | an opening gets an entry exactly when it is listed and played at least three times, holding the counter the loop computes |
| LegacyStats.OpeningCounterCounts | main.py:251-258 | the counter the loop computes for an opening holds its games, wins and draws and 0 losses; its lost games are the rest of its total |
| LegacyStats.MoreGamesStrict | main.py:274 | the sort key is a strict order |
| LegacyStats.RankedOpeningsExactly | main.py:261-274 | an opening is ranked exactly when played at least three times, with its games, wins, draws, 0 losses and the share of wins; its lost games are its games minus its wins and draws; the ranking is by descending games |
| LegacyStats.OpeningAnalysisFacts | main.py:246-288 | `repertoire` holds the `min(10, n)` most played of the n ranked openings, by descending games, with no ranked opening left out played more often than one kept, each played at least three times with 0 losses recorded, its lost games being its games minus its wins and draws; best and worst exist exactly when some opening qualifies, record 0 losses and bound every rate; `total_unique_openings` is the number of distinct openings |
| LegacyStats.MostPlayedKept | main.py:272-283 | the first ten ranked openings are `min(10, n)` of them, by descending games, and no ranked opening left out was played more often than one kept |
| LegacyStats.RepertoireFacts | main.py:260-283 | `repertoire` is the `min(10, n)` most played ranked openings by descending games, each played at least three times with 0 losses recorded and its lost games the rest of its games |
| LegacyStats.RepertoireEntries | main.py:260-270 | each of the first ten ranked openings was played at least three times, records 0 losses, and its lost games make up its games beside its wins and draws |
| LegacyStats.ExtremeOpeningsFacts | main.py:274-287 | best and worst exist exactly when some opening is ranked, carry the highest and lowest win rate of the ranked openings, record 0 losses, and every opening played is counted once |
| LegacyStats.PhaseFoldCounts | main.py:394-400 | a phase counter holds its games, wins and losses |
| LegacyStats.PhaseCounterSnoc | main.py:394-400 | one more game steps only the counter of its end phase |
| LegacyStats.PhaseCounts | main.py:392-406 | with phases set from move counts the three phases split the games, and the reach counts are the games ending in a later phase |
| LegacyStats.PercentMonotone | main.py:428-429 | a larger part of the same whole is a larger percentage |
| LegacyStats.PhaseAnalysisFacts | main.py:377-432 | with phases set from move counts, `games_ended` sums to the games, the endgame entry counts the wins and losses of the games ending there, and the endgame reach rate is their share, at most the middlegame reach rate, both percentages |
| LegacyLosses.PlusOneCounts | main.py:473 | counting steps over a list give its length |
| LegacyLosses.MistakeSnoc | main.py:443-470 | one more game extends each mistake list and count exactly when it is such a loss |
| LegacyLosses.ResignationTableCounts | main.py:462-463 | the resignation table has an entry exactly for the phases with a resigned loss, holding their number |
| LegacyLosses.ResignationEntrySnoc | main.py:462-463 | one more game bumps one phase's entry exactly when it is a resigned loss ending there |
| LegacyLosses.ResignationTableSnoc | main.py:462-463 | one more resigned loss bumps the entry of its end phase, adding it when missing; other games change nothing |
| LegacyLosses.MistakesAreLosses | main.py:444-470 | each kind of mistake is a loss, so none counts more games than the losses |
| LegacyLosses.MistakeFacts | main.py:434-488 | the two rates are percentages and, when there are losses, the shares of quick and time losses among them; at most five quick losses are listed, each under twenty moves; the blunder count is at most the losses; a worst time control exists exactly when some loss was on time |
| LegacyLosses.WorstTimeControlFacts | main.py:484-486 | the worst time control is that of a loss on time and no time control has more such losses |
| LegacyLosses.TimeLossOccurs | main.py:453-459 | a listed time control is that of a game lost on time |
| LegacyLosses.HistogramMostCommon | main.py:485-486 | `most_common(1)` names a time control with no fewer entries than any other |
| LegacyLosses.LateMoves | main.py:508 | the last `min(10, len)` moves in order |
| LegacyLosses.KindOf | main.py:510-517 | queen before rook before minor piece, pawn when none of those letters occurs |
| LegacyLosses.LetterInJoin | main.py:508 | a letter other than the space occurs in the joined moves exactly when it occurs in one of them |
| LegacyLosses.EndgameKindOfMoves | main.py:508-513 | an endgame is a queen ending exactly when one of its last ten moves contains `Q` or `q`, a rook ending exactly when none does but one contains `R` or `r` |
| LegacyLosses.KindsSplit | main.py:506-517 | every endgame falls into exactly one category |
| LegacyLosses.EndgameFacts | main.py:490-539 | a report exists exactly when some game ended in the endgame; the category counts add up to the endgames, the win rate is a percentage, and the conversion rate exists exactly when some endgame was against an opponent rated more than 50 points lower, and is then a percentage |
| LegacyLosses.OfKindNonEmpty | main.py:525-531 | a category's list is non-empty exactly when some endgame has that category |
| LegacyLosses.EndgameOfKindListed | main.py:506-517 | an endgame of a category is in that category's list |
| LegacyLosses.ListedEndgameOfKind | main.py:506-517 | a non-empty category list comes from an endgame of that category |
| LegacyLosses.KindReported | main.py:525-531 | a category is reported exactly when one of the endgames falls into it |
| LegacyLosses.KindEntryIs | main.py:525-531 | a category's entry is built from the endgames of that category |
| LegacyLosses.EndgamesKept | main.py:492 | every game that ended in the endgame is among the endgames |
| LegacyMomentum.SessionEntry | main.py:606-625 | a day adds at most one rate, exactly when it has at least three games and its length picks the group, and the rate is a percentage |
| LegacyMomentum.HourLinesSnoc | main.py:592-595 | one more hour adds its entry exactly when it has at least five games |
| LegacyMomentum.CountHours | main.py:583-588 | the per-hour loop yields the hours in first-seen order and each hour's counter |
| LegacyMomentum.ListHours | main.py:591-595 | the pass lists the hours with at least five games in insertion order |
| LegacyMomentum.BestHoursOf | main.py:583-597 | the counting loop, the listing pass and the sort yield the ranked hours |
| LegacyMomentum.SessionRatesSnoc | main.py:606-625 | one more day adds its session, if it is one, to the group its length picks |
| LegacyMomentum.DailyGames | main.py:600-603 | the per-day grouping yields the days in first-seen order and each day's games |
| LegacyMomentum.AddSession | main.py:606-625 | one day's games add their rate to the group their length picks |
| LegacyMomentum.SessionGroups | main.py:605-625 | the session loop yields the three groups' rates |
| LegacyMomentum.SessionsOf | main.py:599-632 | the grouping, the session loop and the per-group means |
| LegacyMomentum.HourLinesExactly | main.py:591-595 | an hour gets an entry exactly when it is listed and has at least five games, with its counts |
| LegacyMomentum.BestHoursFacts | main.py:583-638 | the `min(3, n)` best-rated of the n ranked hours are listed, best win rate first, with no ranked hour left out rated above one listed; each has at least five games and holds the games played at that hour and the share won |
| LegacyMomentum.BestRatesKept | main.py:638 | the first three ranked hours are `min(3, n)` of them, and no ranked hour left out has a higher rate than one kept |
| LegacyMomentum.TopHoursOrdered | main.py:597-638 | the first three ranked hours come best win rate first |
| LegacyMomentum.TopHoursCounted | main.py:591-638 | each of them has at least five games and holds their count and win rate |
| LegacyMomentum.RankedHourEntry | main.py:591-597 | every ranked entry is an hour with at least five games, holding its count and win rate |
| LegacyMomentum.SessionRatesBounded | main.py:606-613 | session win rates are percentages |
| LegacyMomentum.MeanIfAnyBounded | main.py:627-630 | a group's mean, when present, is a percentage |
| LegacyMomentum.SessionMeansBounded | main.py:615-632 | each length group's mean, when present, is a percentage |
| LegacyMomentum.SessionDaysExactly | main.py:600-640 | the session count is at most the games, and a day is among the play days exactly when some game was played on it |
| LegacyMomentum.StreakFacts | main.py:547-580 | no recorded run of wins (losses) in date order is longer than the reported maximum, a positive maximum is the length of some recorded run, and the recovery rate is a percentage |
| RuleBasedInsights.AfterOpening | insights/rule_based_insights.py:15-51 | the first three rules add one entry each when they fire |
| RuleBasedInsights.AfterTactics | insights/rule_based_insights.py:15-62 | the tactical rule adds its entry only when it fires and fewer than three entries precede it |
| RuleBasedInsights.RulePriorities | insights/rule_based_insights.py:15-72 | the rules add one entry per rule that fires while there is room, never more than three |
| RuleBasedInsights.Padding | insights/rule_based_insights.py:74-81 | `n` general-improvement entries for the current rating |
| RuleBasedInsights.GeneratePriorities | insights/rule_based_insights.py:6-83 | the method returns the rules' entries padded with general improvement, exactly three |
| RuleBasedInsights.PadWith | insights/rule_based_insights.py:74-81 | the padding loop appends copies of one entry until there are `n` |
| RuleBasedInsights.PrioritiesFacts | insights/rule_based_insights.py:6-83 | three priorities; the black, time and opening entries are present exactly when their rules fire, the tactical and endgame entries exactly when their rules fire with room left; the black repertoire entry comes first when present; general improvement only fills the tail |
| RuleBasedInsights.RuleEntries | insights/rule_based_insights.py:15-72 | each rule's entry is among the priorities exactly when it was added |
| RuleBasedInsights.FoundStrengths | insights/rule_based_insights.py:97-128 | at most four strengths come from the metrics |
| RuleBasedInsights.GenerateStrengths | insights/rule_based_insights.py:85-134 | the method returns the strengths the metrics show topped up from the defaults, exactly four |
| RuleBasedInsights.FillStrengths | insights/rule_based_insights.py:123-134 | the padding loop appends the first defaults until there are four |
| RuleBasedInsights.PadFrom | insights/rule_based_insights.py:130-133 | popping the defaults from the front appends their first entries until there are `n` |
| RuleBasedInsights.StrengthsFacts | insights/rule_based_insights.py:85-134 | four strengths: those the metrics show, in check order, then the defaults from the first one on |
| RuleBasedInsights.FoundStrengthsExactly | insights/rule_based_insights.py:97-124 | the endgame, resilience and trading strengths are found exactly when their checks hold, and none of the found ones is a default |
| RuleBasedInsights.GenerateRecommendations | insights/rule_based_insights.py:136-154 | the method returns three to five recommendations opening with the actions of the three priorities |
| RuleBasedInsights.RecommendationsFacts | insights/rule_based_insights.py:136-154 | three to five recommendations: the priorities' actions in order, then the tilt advice exactly when the loss streak reaches 5 and the pre-move advice last exactly when more than half the games had a time-pressure move |
| RuleBasedInsights.GetMostCommon | insights/rule_based_insights.py:229-233 | `'none'` for an empty count dict, otherwise a key whose count is the largest, the first such in insertion order |
| RuleBasedInsights.ConditionsFacts | insights/rule_based_insights.py:156-175 | the average game length is the mean of the lengths, and 0 when there are none |
| RuleBasedInsights.Improvements | insights/rule_based_insights.py:183-216 | at most three improvement targets |
| RuleBasedInsights.ProjectionsFacts | insights/rule_based_insights.py:177-227 | the 90-day range adds the point gains of the time and opening targets to the current rating (the black-rate target, in percent, adds nothing); the 30-day range adds half of them, rounded down; the ranges are ordered and never below the rating |
| RuleBasedInsights.GainSums | insights/rule_based_insights.py:218-219 | only targets whose gain is in points are summed |
| RuleBasedInsights.SumAppend | insights/rule_based_insights.py:218-219 | summing over a concatenation adds the two sums |
| ChessAnalyzer.GetRatingLevel | analyzer/chess_analyzer.py:79-84 | the loop's level is that of the highest threshold the rating reaches, and there is none (the unbound local) exactly when the rating is below every threshold |
| ChessAnalyzer.LastReachedIsLast | analyzer/chess_analyzer.py:81-83 | the loop keeps the level of the last entry the rating reaches, and none when it reaches none |
| ChessAnalyzer.SortedByThreshold | analyzer/chess_analyzer.py:81 | sorting keeps the same entries and orders them by threshold |
| ChessAnalyzer.RatingLevelIsHighest | analyzer/chess_analyzer.py:79-84 | the level is that of the highest threshold reached, and is missing exactly when the rating is below every threshold |
| ChessAnalyzer.NoLevelExactly | analyzer/chess_analyzer.py:79-84 | the level is missing exactly when the rating is below every threshold |
| ChessAnalyzer.LevelIsHighest | analyzer/chess_analyzer.py:79-84 | a level found is that of the highest threshold the rating reaches |
| ChessAnalyzer.HighestOfSorted | analyzer/chess_analyzer.py:81-83 | over the entries in threshold order the last one reached is the highest one reached |
| ChessAnalyzer.ParseAll | analyzer/chess_analyzer.py:36-46 | the parsing loop yields the fact sheets of the records that parse, skipping the ones that raise |
| ChessAnalyzer.ParsedIsFilter | analyzer/chess_analyzer.py:36-46 | the kept sheets are exactly those of the records with all required fields, in input order |
| ChessAnalyzer.SheetsSnoc | analyzer/chess_analyzer.py:41-46 | a record that parses adds its sheet; one that raises adds nothing |
| ChessAnalyzer.NothingParsed | analyzer/chess_analyzer.py:36-48 | nothing is parsed exactly when every record lacks a required field |
| ChessAnalyzer.InsightsFacts | analyzer/chess_analyzer.py:69-75 | three priorities, four strengths, and three to five recommendations that open with the priorities' actions |
| ChessAnalyzer.Analyze | analyzer/chess_analyzer.py:22-77 | the method's outcome is that of `analyze` for the fetched records and the stats rating |
| ChessAnalyzer.AnalyzeOutcomes | analyzer/chess_analyzer.py:30-60 | `(None, None)` exactly when nothing was fetched; otherwise `analyze` raises on the rating level exactly when the rating is below every threshold |
| ChessAnalyzer.AllRecordsFail | analyzer/chess_analyzer.py:50-63 | `analyze` raises on the missing `basic_stats` exactly when records were fetched, the rating level was found and no record parsed |
| ChessAnalyzer.ReportFacts | analyzer/chess_analyzer.py:22-77 | a report counts every record that parsed, carries the user name and the stats rating (0 when absent), names the level of the highest threshold that rating reaches, and holds the insights of its own metrics |
| ChessAnalyzer.ReportIsOf | analyzer/chess_analyzer.py:50-65 | a report is built from the metrics of the parsed records, which are then non-empty, and the level found |
| ChessAnalyzer.ReportCountsParsed | analyzer/chess_analyzer.py:52 | the metrics of a non-empty list count all of its games |
| ChessAnalyzer.TacticalAlwaysConsidered | insights/rule_based_insights.py:53-62 | with the fixed tactical loss rate the tactical priority is listed exactly when fewer than three of the first rules fire |
| ChessAnalyzer.ComputedTacticalRate | analyzer/metrics_calculator.py:613-659 | every metrics dict computed from games carries the fixed tactical loss rate |

## Left out

- `analyzer/data_fetcher.py`, `fetch_games` in `main.py` and `fetch_player_stats` make HTTP requests to the chess site. Their results are inputs of `ChessAnalyzer.Analyze`: the records and the stats rating.
- `report/report_formatter.py`, `generate_report` and `main` in `main.py`, and the report text lay out strings and write files. No property of the analysis depends on them.
- `analyze_patterns` and `generate_insights` in `main.py` belong to the older analyzer's report path. They are not part of the analysis modelled here.
- `insights/insight_generator.py` is an abstract interface with no behaviour of its own. `RuleBasedInsights` is its only implementation and is modelled directly; plugging in another generator is not modelled.
- `_calculate_rating_trends` is not modelled. It needs `math.sqrt`, `round` and `timedelta` arithmetic over floats, which have no exact counterpart here. The `rating_trends` key is therefore missing from `AllMetrics.CalculatedMetrics`.
- `_calculate_game_flow_metrics` is not modelled, and neither are the fixed `typical_*` and blunder-trend numbers of the exchange and tactical metrics. They are constants independent of the games. The one such constant that the insight rules read, `tactical_loss_rate` (40), is kept.
- The timezone conversion of `datetime.fromtimestamp` and the text of `strftime` are not modelled. The conversion is the parameter `localTime`; weekday names and the hour are derived from its result.
- Progress and error printing are left out. So are exception message texts: every raised exception is one error value.
- Floating-point rounding is not modelled: rates and means are exact reals. A guarded division that yields `0` is modelled exactly.
- Only ASCII digits count as `\d`, and `lower()`, `upper()` and `title()` change only ASCII letters. Python's Unicode digits and case mappings are not modelled.
- Only the regular expressions the parser uses are modelled, each as its own scanner. A general regular-expression engine is not.
- `RATING_LEVELS` is a sequence of (threshold, level) pairs with distinct thresholds, as the keys of a dict are.
- Text.Titled: the contract states only that the length is kept. The letter-by-letter case change is stated only for the display name proved in `ExchangeMetrics.QueenTradesTitled`.
- ExchangeMetrics.ImbalanceName: the contract states only the length of the display name. It relies on `Text.Titled`, as above.
- GameParser.AnalyzePieceActivity: requires every move to be non-empty. On an empty move the source raises `IndexError`. The parser never produces an empty move (`GameParser.ExtractedMovesNonEmpty`).

## Findings

| source | as written | input that shows it | evidently intended | confidence | as-written member | corrected member |
|---|---|---|---|---|---|---|
| main.py:253-258 | `analyze_openings` bumps the key `result_type + 's'`. For a loss that key is `losss`, which the counter does not have, so losses are never counted | one lost game with any opening: its counter reads `losses: 0` | the key `losses`, so that each opening's losses are counted | not executed | LegacyStats.LossesNeverCounted | LegacyStats.IntendedOpeningCounts |
