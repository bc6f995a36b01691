/**
 * `_calculate_performance_trends` and `_get_time_range`
 * (analyzer/metrics_calculator.py): win rates per weekday and per time of
 * day, in the order the days and times first occur.
 */
module TrendMetrics {
  import opened Tally
  import opened Grouping
  import opened GameParser
  import opened Metrics

  function DayOfWeekOf(g: ParsedGame): string { g.dayOfWeek }
  function TimeOfDayOf(g: ParsedGame): string { g.timeOfDay }

  /** The time-of-day names `_get_time_range` knows. */
  const TimeRangeNames: seq<string> := ["Morning", "Afternoon", "Evening", "Night"]

  /** `_get_time_range`: the hour span of a named time of day, `""` for any other name. */
  function GetTimeRange(category: string): (r: string)
    ensures r != "" <==> category in TimeRangeNames
    ensures category == "Morning" ==> r == "6am-12pm"
    ensures category == "Afternoon" ==> r == "12pm-6pm"
    ensures category == "Evening" ==> r == "6pm-12am"
    ensures category == "Night" ==> r == "12am-6am"
  {
    if category == "Morning" then "6am-12pm"
    else if category == "Afternoon" then "12pm-6pm"
    else if category == "Evening" then "6pm-12am"
    else if category == "Night" then "12am-6am"
    else ""
  }

  /** An entry `{'games', 'wins', 'win_rate'}` of a trend table, under its key. */
  datatype TrendLine = TrendLine(key: string, games: nat, wins: nat, winRate: real)

  /** An entry of `time_of_day`, with its `hours`. */
  datatype TimeLine = TimeLine(line: TrendLine, hours: string)

  /** The counter of the games whose `key` is `k`. */
  function TrendCounter(games: seq<ParsedGame>, key: ParsedGame -> string, k: string): WinTally {
    Fold(Select(games, key, k), TallyZero, TallyStep)
  }

  /** The entries built from the keys `keys`, in order, for those with a game. */
  function TrendLines(games: seq<ParsedGame>, key: ParsedGame -> string, keys: seq<string>): seq<TrendLine> {
    if keys == [] then []
    else
      var k := keys[|keys| - 1];
      var c := TrendCounter(games, key, k);
      TrendLines(games, key, keys[..|keys| - 1]) + (if c.games > 0 then [TrendLine(k, c.games, c.wins, Percent(c.wins, c.games))] else [])
  }

  function WithHours(line: TrendLine): TimeLine {
    TimeLine(line, GetTimeRange(line.key))
  }

  datatype PerformanceTrends = PerformanceTrends(dayOfWeek: seq<TrendLine>, timeOfDay: seq<TimeLine>)

  /** The value `_calculate_performance_trends` returns. */
  function PerformanceTrendsSpec(games: seq<ParsedGame>): PerformanceTrends {
    PerformanceTrends(
      TrendLines(games, DayOfWeekOf, Keys(games, DayOfWeekOf)),
      MapSeq(TrendLines(games, TimeOfDayOf, Keys(games, TimeOfDayOf)), WithHours))
  }

  /** One counting loop over a `defaultdict` of counters and the loop that turns the counters into entries. */
  method TrendLinesOf(games: seq<ParsedGame>, key: ParsedGame -> string) returns (lines: seq<TrendLine>)
    ensures lines == TrendLines(games, key, Keys(games, key))
  {
    var keys, counters := CountTrend(games, key);
    lines := ListTrend(games, key, keys, counters);
  }

  /** `counters` holds, for each key of `keys`, the tally of the games with that key. */
  predicate TrendCounters(games: seq<ParsedGame>, key: ParsedGame -> string, keys: seq<string>, counters: seq<WinTally>) {
    |counters| == |keys| && forall i :: 0 <= i < |keys| ==> counters[i] == TrendCounter(games, key, keys[i])
  }

  /** The counting loop: the keys in first-seen order and each key's tally. */
  method CountTrend(games: seq<ParsedGame>, key: ParsedGame -> string) returns (keys: seq<string>, counters: seq<WinTally>)
    ensures keys == Keys(games, key)
    ensures TrendCounters(games, key, keys, counters)
  {
    var stats;
    keys, stats := GroupFold(games, key, TallyZero, TallyStep);
    counters := ValuesInOrder(keys, stats);
    forall i | 0 <= i < |keys|
      ensures counters[i] == TrendCounter(games, key, keys[i])
    {
      assert keys[i] in keys;
    }
  }

  /** One more key adds its entry when it has games. */
  lemma TrendLinesSnoc(games: seq<ParsedGame>, key: ParsedGame -> string, keys: seq<string>, k: string)
    ensures var c := TrendCounter(games, key, k);
      TrendLines(games, key, keys + [k]) == TrendLines(games, key, keys) + (if c.games > 0 then [TrendLine(k, c.games, c.wins, Percent(c.wins, c.games))] else [])
  {
    assert (keys + [k])[..|keys|] == keys;
  }

  /** The loop that turns each counter with games into its entry, in the order of `keys`. */
  method ListTrend(games: seq<ParsedGame>, key: ParsedGame -> string, keys: seq<string>, counters: seq<WinTally>) returns (lines: seq<TrendLine>)
    requires TrendCounters(games, key, keys, counters)
    ensures lines == TrendLines(games, key, keys)
  {
    lines := [];
    for i := 0 to |keys|
      invariant lines == TrendLines(games, key, keys[..i])
    {
      var k, c := keys[i], counters[i];
      PrefixSnoc(keys, i);
      TrendLinesSnoc(games, key, keys[..i], k);
      if c.games > 0 {
        lines := lines + [TrendLine(k, c.games, c.wins, Percent(c.wins, c.games))];
      }
    }
    assert keys[..|keys|] == keys;
  }

  /** The loop that adds `hours` to every time-of-day entry. */
  method AddHours(times: seq<TrendLine>) returns (timeLines: seq<TimeLine>)
    ensures timeLines == MapSeq(times, WithHours)
  {
    timeLines := [];
    for i := 0 to |times|
      invariant timeLines == MapSeq(times[..i], WithHours)
    {
      PrefixSnoc(times, i);
      MapSeqSnoc(times[..i], times[i], WithHours);
      timeLines := timeLines + [WithHours(times[i])];
    }
    assert times[..|times|] == times;
  }

  /** `_calculate_performance_trends`: the weekday table, then the time-of-day table with its hour spans. */
  method PerformanceTrendsOf(games: seq<ParsedGame>) returns (t: PerformanceTrends)
    ensures t == PerformanceTrendsSpec(games)
  {
    var days := TrendLinesOf(games, DayOfWeekOf);
    var times := TrendLinesOf(games, TimeOfDayOf);
    var timeLines := AddHours(times);
    t := PerformanceTrends(days, timeLines);
  }

  /** The entry a key with games gets: its game count, its wins and their percentage. */
  function LineFor(games: seq<ParsedGame>, key: ParsedGame -> string, k: string): TrendLine {
    var gs := Select(games, key, k);
    TrendLine(k, |gs|, Count(gs, Won), Percent(Count(gs, Won), |gs|))
  }

  /** Every key that occurs gets exactly one entry, in the order of `keys`, holding its counts. */
  lemma {:induction false} TrendLinesMeaning(games: seq<ParsedGame>, key: ParsedGame -> string, keys: seq<string>)
    requires forall i :: 0 <= i < |keys| ==> HasKey(games, key, keys[i])
    ensures |TrendLines(games, key, keys)| == |keys|
    ensures forall i :: 0 <= i < |keys| ==> TrendLines(games, key, keys)[i] == LineFor(games, key, keys[i])
  {
    if keys != [] {
      var init := keys[..|keys| - 1];
      var k := keys[|keys| - 1];
      TrendLinesMeaning(games, key, init);
      TrendEntry(games, key, k);
      var lines := TrendLines(games, key, keys);
      assert lines == TrendLines(games, key, init) + [LineFor(games, key, k)];
      forall i | 0 <= i < |keys|
        ensures lines[i] == LineFor(games, key, keys[i])
      {
        if i < |init| {
          assert keys[i] == init[i];
        }
      }
    }
  }

  /** A key that occurs has games, and its entry is the one `LineFor` describes. */
  lemma TrendEntry(games: seq<ParsedGame>, key: ParsedGame -> string, k: string)
    requires HasKey(games, key, k)
    ensures var c := TrendCounter(games, key, k);
      c.games > 0 && TrendLine(k, c.games, c.wins, Percent(c.wins, c.games)) == LineFor(games, key, k)
  {
    var gs := Select(games, key, k);
    TallyFoldCounts(gs);
    var j :| 0 <= j < |games| && key(games[j]) == k;
    SelectHas(games, key, j);
  }

  /**
   * Both tables have one entry per weekday (time of day) that occurs, in
   * first-seen order; each entry counts the games and the wins on that day
   * (at that time) and its win rate is their percentage; a time-of-day entry
   * carries the hour span of its name.
   */
  lemma PerformanceTrendsFacts(games: seq<ParsedGame>)
    ensures var t := PerformanceTrendsSpec(games);
      && |t.dayOfWeek| == |Keys(games, DayOfWeekOf)|
      && (forall i :: 0 <= i < |t.dayOfWeek| ==> t.dayOfWeek[i] == LineFor(games, DayOfWeekOf, Keys(games, DayOfWeekOf)[i]))
      && |t.timeOfDay| == |Keys(games, TimeOfDayOf)|
      && (forall i :: 0 <= i < |t.timeOfDay| ==>
            t.timeOfDay[i] == TimeLine(LineFor(games, TimeOfDayOf, Keys(games, TimeOfDayOf)[i]), GetTimeRange(Keys(games, TimeOfDayOf)[i])))
  {
    KeysOccur(games, DayOfWeekOf);
    KeysOccur(games, TimeOfDayOf);
    TrendLinesMeaning(games, DayOfWeekOf, Keys(games, DayOfWeekOf));
    TrendLinesMeaning(games, TimeOfDayOf, Keys(games, TimeOfDayOf));
  }

  /** Every listed key occurs. */
  lemma KeysOccur(games: seq<ParsedGame>, key: ParsedGame -> string)
    ensures forall i :: 0 <= i < |Keys(games, key)| ==> HasKey(games, key, Keys(games, key)[i])
  {
    forall i | 0 <= i < |Keys(games, key)|
      ensures HasKey(games, key, Keys(games, key)[i])
    {
      KeysExactly(games, key, Keys(games, key)[i]);
    }
  }

  /** A game's weekday or time of day is listed, so its table has an entry for it. */
  lemma EveryDayListed(games: seq<ParsedGame>, j: nat)
    requires j < |games|
    ensures exists i :: 0 <= i < |PerformanceTrendsSpec(games).dayOfWeek| && PerformanceTrendsSpec(games).dayOfWeek[i].key == games[j].dayOfWeek
    ensures exists i :: 0 <= i < |PerformanceTrendsSpec(games).timeOfDay| && PerformanceTrendsSpec(games).timeOfDay[i].line.key == games[j].timeOfDay
  {
    var a := KeyListed(games, DayOfWeekOf, j);
    var b := KeyListed(games, TimeOfDayOf, j);
    var t := PerformanceTrendsSpec(games);
    assert t.dayOfWeek[a].key == games[j].dayOfWeek;
    assert t.timeOfDay[b].line == TrendLines(games, TimeOfDayOf, Keys(games, TimeOfDayOf))[b];
  }

  /** The key of any game has an entry in its table; `i` is where. */
  lemma KeyListed(games: seq<ParsedGame>, key: ParsedGame -> string, j: nat) returns (i: nat)
    requires j < |games|
    ensures i < |TrendLines(games, key, Keys(games, key))| && TrendLines(games, key, Keys(games, key))[i].key == key(games[j])
  {
    var ks := Keys(games, key);
    KeysOccur(games, key);
    TrendLinesMeaning(games, key, ks);
    KeysExactly(games, key, key(games[j]));
    i :| 0 <= i < |ks| && ks[i] == key(games[j]);
  }
}
