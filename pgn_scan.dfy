/**
 * Hand-written scanners for the regular expressions the game parser applies
 * to PGN text (analyzer/game_parser.py, duplicated in main.py):
 *
 *  - `re.sub(r'\{[^}]*\}', '', pgn)` and `re.sub(r'\([^)]*\)', '', ...)`,
 *    which delete brace comments and parenthesised variations (PGN standard,
 *    sections 5 and 8.2.5) without nesting;
 *  - `re.findall(r'\d+\.\s*([^\s]+)\s*(?:\{[^}]*\})?\s*([^\s]+)?', clean)`,
 *    the move-number / white token / optional black token pattern (sections
 *    8.2.2 and 8.2.3), followed by the flattening loop;
 *  - `re.findall(r'\[%clk (\d+):(\d+):(\d+(?:\.\d+)?)\]', pgn)`, the clock
 *    command of the PGN Specification Supplement.
 *
 * Each scanner tries the pattern at every start position from left to right
 * and resumes after a match, as `re.sub`/`re.findall` do; the anchored match
 * functions follow the pattern's greedy steps exactly.
 */
module PgnScan {
  import opened Text
  import opened Wrappers

  /** Index of the first `c` at or after `from`, if any. */
  function FindFrom(s: string, from: nat, c: char): (r: Option<nat>)
    requires from <= |s|
    ensures r.Some? ==> from <= r.value < |s| && s[r.value] == c
    ensures r.Some? ==> forall j :: from <= j < r.value ==> s[j] != c
    ensures r.None? ==> forall j :: from <= j < |s| ==> s[j] != c
    decreases |s| - from
  {
    if from == |s| then None
    else if s[from] == c then Some(from)
    else FindFrom(s, from + 1, c)
  }

  // ---------------------------------------------------------------------------
  // Comment and variation removal
  // ---------------------------------------------------------------------------

  /**
   * `re.sub(r'\{[^}]*\}', '', s)` for `open`, `close` = `{`, `}` (and the
   * parenthesis pattern for `(`, `)`): each `open` that has a `close` later on
   * is deleted together with everything up to and including the first such
   * `close`; an `open` with no `close` after it stays in the text.
   */
  function StripDelimited(s: string, open: char, close: char): (r: string)
    requires open != close
    ensures |r| <= |s|
    ensures forall c :: c in r ==> c in s
    decreases |s|
  {
    if s == [] then []
    else if s[0] == open && FindFrom(s, 1, close).Some? then
      StripDelimited(s[FindFrom(s, 1, close).value + 1..], open, close)
    else
      [s[0]] + StripDelimited(s[1..], open, close)
  }

  /** No `open` in `r` is followed by a `close`. */
  ghost predicate NoGroup(r: string, open: char, close: char) {
    forall i, j :: 0 <= i < j < |r| && r[i] == open ==> r[j] != close
  }

  /** No complete `open ... close` group survives the removal: no `open` is followed by a `close`. */
  lemma {:induction false} StripLeavesNoGroup(s: string, open: char, close: char)
    requires open != close
    ensures NoGroup(StripDelimited(s, open, close), open, close)
  {
    if s == [] {
      return;
    }
    var f := FindFrom(s, 1, close);
    if s[0] == open && f.Some? {
      StripLeavesNoGroup(s[f.value + 1..], open, close);
    } else {
      var rest := StripDelimited(s[1..], open, close);
      StripLeavesNoGroup(s[1..], open, close);
      var r := [s[0]] + rest;
      assert StripDelimited(s, open, close) == r;
      if s[0] == open {
        forall k | 0 <= k < |s| - 1
          ensures s[1..][k] != close
        {
          assert s[1..][k] == s[k + 1];
        }
        assert close !in rest;
      }
      forall i, j | 0 <= i < j < |r| && r[i] == open
        ensures r[j] != close
      {
        if i == 0 {
          assert r[j] in rest;
        } else {
          assert rest[i - 1] == open && r[j] == rest[j - 1];
        }
      }
    }
  }

  /** Text with no `open` character is left as it is. */
  lemma {:induction false} StripWithoutOpen(s: string, open: char, close: char)
    requires open != close
    requires open !in s
    ensures StripDelimited(s, open, close) == s
  {
    if s != [] {
      assert open !in s[1..];
      StripWithoutOpen(s[1..], open, close);
      assert s == [s[0]] + s[1..];
    }
  }

  /** Text before the first `open` is kept as it is. */
  lemma {:induction false} StripKeepsPlainPrefix(a: string, b: string, open: char, close: char)
    requires open != close
    requires open !in a
    ensures StripDelimited(a + b, open, close) == a + StripDelimited(b, open, close)
  {
    if a != [] {
      assert (a + b)[0] == a[0] != open;
      assert (a + b)[1..] == a[1..] + b;
      assert open !in a[1..];
      StripKeepsPlainPrefix(a[1..], b, open, close);
      assert a == [a[0]] + a[1..];
    } else {
      assert a + b == b;
    }
  }

  /** A complete group `open ... close`, with no other `close` inside, is deleted. */
  lemma StripDropsGroup(g: string, b: string, open: char, close: char)
    requires open != close
    requires |g| >= 2 && g[0] == open && g[|g| - 1] == close
    requires close !in g[1..|g| - 1]
    ensures StripDelimited(g + b, open, close) == StripDelimited(b, open, close)
  {
    var s := g + b;
    forall j | 1 <= j < |g| - 1
      ensures s[j] != close
    {
      assert s[j] == g[1..|g| - 1][j - 1];
    }
    assert s[0] == open && s[|g| - 1] == close;
    var f := FindFrom(s, 1, close);
    assert f.Some?;
    assert f.value == |g| - 1;
    assert s[|g|..] == b;
  }

  /** The text the move pattern is run on: brace comments removed, then parenthesised variations. */
  function CleanMovetext(pgn: string): string {
    StripDelimited(StripDelimited(pgn, '{', '}'), '(', ')')
  }

  // ---------------------------------------------------------------------------
  // The move pattern
  // ---------------------------------------------------------------------------

  /** End of the maximal run of digits starting at `i` (greedy `\d*`). */
  function DigitRunEnd(s: string, i: nat): (j: nat)
    requires i <= |s|
    ensures i <= j <= |s|
    ensures forall k :: i <= k < j ==> IsDigit(s[k])
    ensures j < |s| ==> !IsDigit(s[j])
    decreases |s| - i
  {
    if i == |s| || !IsDigit(s[i]) then i else DigitRunEnd(s, i + 1)
  }

  /** End of the maximal run of whitespace starting at `i` (greedy `\s*`). */
  function SpaceRunEnd(s: string, i: nat): (j: nat)
    requires i <= |s|
    ensures i <= j <= |s|
    ensures forall k :: i <= k < j ==> IsSpace(s[k])
    ensures j < |s| ==> !IsSpace(s[j])
    decreases |s| - i
  {
    if i == |s| || !IsSpace(s[i]) then i else SpaceRunEnd(s, i + 1)
  }

  /** End of the maximal run of non-whitespace starting at `i` (greedy `[^\s]*`). */
  function TokenEnd(s: string, i: nat): (j: nat)
    requires i <= |s|
    ensures i <= j <= |s|
    ensures forall k :: i <= k < j ==> !IsSpace(s[k])
    ensures j < |s| ==> IsSpace(s[j])
    decreases |s| - i
  {
    if i == |s| || IsSpace(s[i]) then i else TokenEnd(s, i + 1)
  }

  /** No whitespace in a token. */
  ghost predicate SpaceFree(tok: string) {
    forall k :: 0 <= k < |tok| ==> !IsSpace(tok[k])
  }

  /** The token that starts at `i`: the text up to the next whitespace. */
  function TokenAt(s: string, i: nat): (tok: string)
    requires i <= |s|
    ensures tok == s[i..TokenEnd(s, i)] && SpaceFree(tok)
  {
    var e := TokenEnd(s, i);
    assert forall k :: 0 <= k < e - i ==> s[i..e][k] == s[i + k];
    s[i..e]
  }

  /** One match of the move pattern: the two captured groups (the second `""` when it did not take part) and where the match ends. */
  datatype MoveMatch = MoveMatch(white: string, black: string, end: nat)

  /**
   * The move pattern anchored at `i`: `\d+` then `.`, whitespace, the white
   * token (at least one non-space character), whitespace, an optional
   * `{...}` group, whitespace, and an optional black token.
   */
  function MatchMoveAt(s: string, i: nat): (m: Option<MoveMatch>)
    requires i <= |s|
    ensures m.Some? ==> i < m.value.end <= |s|
    ensures m.Some? ==> m.value.white != [] && SpaceFree(m.value.white) && SpaceFree(m.value.black)
  {
    if i == |s| || !IsDigit(s[i]) then None
    else
      var q := DigitRunEnd(s, i);
      if q == |s| || s[q] != '.' then None
      else
        var r := SpaceRunEnd(s, q + 1);
        var t := TokenEnd(s, r);
        if t == r then None
        else
          var u := SpaceRunEnd(s, t);
          var close := if u < |s| && s[u] == '{' then FindFrom(s, u + 1, '}') else None;
          var afterGroup := if close.Some? then close.value + 1 else u;
          var b := SpaceRunEnd(s, afterGroup);
          var e := TokenEnd(s, b);
          Some(MoveMatch(TokenAt(s, r), TokenAt(s, b), e))
  }

  /** `re.findall` of the move pattern over `s[i..]`: try each start position, resume after each match. */
  function MoveMatches(s: string, i: nat): (ms: seq<MoveMatch>)
    requires i <= |s|
    ensures forall k :: 0 <= k < |ms| ==> ms[k].white != [] && SpaceFree(ms[k].white) && SpaceFree(ms[k].black)
    decreases |s| - i
  {
    if i == |s| then []
    else
      match MatchMoveAt(s, i)
      case Some(m) => [m] + MoveMatches(s, m.end)
      case None => MoveMatches(s, i + 1)
  }

  /** The flattening loop keeps a captured token unless it is empty or starts with `[`. */
  predicate KeepToken(tok: string) {
    tok != [] && tok[0] != '['
  }

  /** The tokens the flattening loop appends for the matches `ms`, white before black. */
  function Flatten(ms: seq<MoveMatch>): (moves: seq<string>)
  {
    if ms == [] then []
    else
      var m := ms[|ms| - 1];
      Flatten(ms[..|ms| - 1])
        + (if KeepToken(m.white) then [m.white] else [])
        + (if KeepToken(m.black) then [m.black] else [])
  }

  /** `_parse_pgn_moves(pgn)`: the move list the game parser extracts. */
  function ExtractMoves(pgn: string): seq<string> {
    Flatten(MoveMatches(CleanMovetext(pgn), 0))
  }

  /** Every flattened token is one of the captured tokens that the loop keeps. */
  lemma {:induction false} FlattenKeeps(ms: seq<MoveMatch>)
    requires forall k :: 0 <= k < |ms| ==> SpaceFree(ms[k].white) && SpaceFree(ms[k].black)
    ensures forall k :: 0 <= k < |Flatten(ms)| ==> KeepToken(Flatten(ms)[k]) && SpaceFree(Flatten(ms)[k])
  {
    if ms != [] {
      FlattenKeeps(ms[..|ms| - 1]);
    }
  }

  /**
   * No extracted move is empty, starts with `[`, or contains whitespace, so
   * `move[0]` is always defined for the callers.
   */
  lemma ExtractedMovesWellFormed(pgn: string)
    ensures forall k :: 0 <= k < |ExtractMoves(pgn)| ==>
      KeepToken(ExtractMoves(pgn)[k]) && SpaceFree(ExtractMoves(pgn)[k])
  {
    FlattenKeeps(MoveMatches(CleanMovetext(pgn), 0));
  }

  /**
   * The loop of `_parse_pgn_moves`: append each match's white token, then its
   * black token, skipping empty ones and ones starting with `[`.
   */
  method ParsePgnMoves(pgn: string) returns (flatMoves: seq<string>)
    ensures flatMoves == ExtractMoves(pgn)
    ensures forall k :: 0 <= k < |flatMoves| ==> KeepToken(flatMoves[k]) && SpaceFree(flatMoves[k])
  {
    var matches := MoveMatches(CleanMovetext(pgn), 0);
    flatMoves := [];
    for i := 0 to |matches|
      invariant flatMoves == Flatten(matches[..i])
    {
      assert matches[..i + 1][..i] == matches[..i];
      var m := matches[i];
      if KeepToken(m.white) {
        flatMoves := flatMoves + [m.white];
      }
      if KeepToken(m.black) {
        flatMoves := flatMoves + [m.black];
      }
    }
    assert matches[..|matches|] == matches;
    ExtractedMovesWellFormed(pgn);
  }

  // ---------------------------------------------------------------------------
  // The clock pattern
  // ---------------------------------------------------------------------------

  /** One `[%clk H:MM:SS(.ff)]` reading: hours, minutes and seconds as `int()` and `float()` read them. */
  datatype Clock = Clock(hours: nat, minutes: nat, seconds: real)

  /** `int(hours)*3600 + int(minutes)*60 + float(seconds)`. */
  function ClockSeconds(c: Clock): real {
    (c.hours * 3600 + c.minutes * 60) as real + c.seconds
  }

  /** `\d+` captured from `s[i..j]`, read as a number. */
  function NumberAt(s: string, i: nat, j: nat): nat
    requires i <= j <= |s|
    requires forall k :: i <= k < j ==> IsDigit(s[k])
  {
    DigitsValue(s[i..j])
  }

  /** The digits `s[i..j]` after a decimal point, read as a fraction. */
  function FractionAt(s: string, i: nat, j: nat): (f: real)
    requires i <= j <= |s|
    requires forall k :: i <= k < j ==> IsDigit(s[k])
    ensures 0.0 <= f
  {
    NumberAt(s, i, j) as real / Pow10(j - i) as real
  }

  /** The clock pattern anchored at `i`: the reading and where the match ends. */
  function MatchClockAt(s: string, i: nat): (m: Option<(Clock, nat)>)
    requires i <= |s|
    ensures m.Some? ==> i < m.value.1 <= |s|
    ensures m.Some? ==> m.value.0.seconds >= 0.0
  {
    if !(i + 6 <= |s| && s[i..i + 6] == "[%clk ") then None
    else
      var h0 := i + 6;
      var h1 := DigitRunEnd(s, h0);
      if h1 == h0 || h1 == |s| || s[h1] != ':' then None
      else
        var m1 := DigitRunEnd(s, h1 + 1);
        if m1 == h1 + 1 || m1 == |s| || s[m1] != ':' then None
        else
          var s1 := DigitRunEnd(s, m1 + 1);
          if s1 == m1 + 1 || s1 == |s| then None
          else
            var whole := NumberAt(s, m1 + 1, s1);
            var clock := Clock(NumberAt(s, h0, h1), NumberAt(s, h1 + 1, m1), whole as real);
            if s[s1] == ']' then Some((clock, s1 + 1))
            else if s[s1] != '.' then None
            else
              var f1 := DigitRunEnd(s, s1 + 1);
              if f1 == s1 + 1 || f1 == |s| || s[f1] != ']' then None
              else
                Some((clock.(seconds := whole as real + FractionAt(s, s1 + 1, f1)), f1 + 1))
  }

  /** `re.findall` of the clock pattern over `s[i..]`, in document order. */
  function ClockMatches(s: string, i: nat): (cs: seq<Clock>)
    requires i <= |s|
    ensures forall k :: 0 <= k < |cs| ==> cs[k].seconds >= 0.0
    decreases |s| - i
  {
    if i == |s| then []
    else
      match MatchClockAt(s, i)
      case Some((c, e)) => [c] + ClockMatches(s, e)
      case None => ClockMatches(s, i + 1)
  }

  /** Every clock reading starts at a `[`: text without one carries no readings. */
  lemma {:induction false} NoBracketNoClocks(s: string, i: nat)
    requires i <= |s|
    requires forall k :: i <= k < |s| ==> s[k] != '['
    ensures ClockMatches(s, i) == []
    decreases |s| - i
  {
    if i < |s| {
      assert s[i] != '[';
      assert MatchClockAt(s, i).None? by {
        if i + 6 <= |s| {
          assert s[i..i + 6][0] == s[i];
        }
      }
      NoBracketNoClocks(s, i + 1);
    }
  }

  // ---------------------------------------------------------------------------
  // A worked example: a comment between the two half-moves of a move
  // ---------------------------------------------------------------------------

  /** Cleaning removes the brace comment and leaves the spaces on both sides of it. */
  lemma CleanCommentExample(p: string, a: string, g: string, rest: string, c: string)
    requires a == "1. e4 " && g == "{good move}" && rest == " e5 2. Nf3 Nc6"
    requires p == a + (g + rest) && c == a + rest
    ensures CleanMovetext(p) == c
  {
    assert '{' !in a;
    assert '}' !in g[1..|g| - 1];
    assert '{' !in rest;
    assert '(' !in c;
    StripKeepsPlainPrefix(a, g + rest, '{', '}');
    StripDropsGroup(g, rest, '{', '}');
    StripWithoutOpen(rest, '{', '}');
    StripWithoutOpen(c, '(', ')');
  }

  lemma FirstMoveExample(c: string)
    requires c == "1. e4  e5 2. Nf3 Nc6"
    ensures MatchMoveAt(c, 0) == Some(MoveMatch("e4", "e5", 9))
  {
    FirstWhiteScan(c);
    FirstBlackScan(c);
    PlainMoveAt(c, 0, 1, 3, 5, 7, 9);
    assert c[3..5] == "e4" && c[7..9] == "e5";
  }

  lemma FirstWhiteScan(c: string)
    requires c == "1. e4  e5 2. Nf3 Nc6"
    ensures IsDigit(c[0]) && DigitRunEnd(c, 0) == 1 && c[1] == '.'
    ensures SpaceRunEnd(c, 2) == 3 && TokenEnd(c, 3) == 5
  {
    assert IsDigit(c[0]) && !IsDigit(c[1]);
    assert IsSpace(c[2]) && !IsSpace(c[3]);
    assert !IsSpace(c[4]) && IsSpace(c[5]);
  }

  lemma FirstBlackScan(c: string)
    requires c == "1. e4  e5 2. Nf3 Nc6"
    ensures SpaceRunEnd(c, 5) == 7 && c[7] != '{' && TokenEnd(c, 7) == 9
  {
    assert IsSpace(c[6]) && !IsSpace(c[7]);
    assert !IsSpace(c[8]) && IsSpace(c[9]);
  }

  lemma SecondMoveExample(c: string)
    requires c == "1. e4  e5 2. Nf3 Nc6"
    ensures MatchMoveAt(c, 10) == Some(MoveMatch("Nf3", "Nc6", 20))
  {
    SecondWhiteScan(c);
    SecondBlackScan(c);
    PlainMoveAt(c, 10, 11, 13, 16, 17, 20);
    assert c[13..16] == "Nf3" && c[17..20] == "Nc6";
  }

  lemma SecondWhiteScan(c: string)
    requires c == "1. e4  e5 2. Nf3 Nc6"
    ensures IsDigit(c[10]) && DigitRunEnd(c, 10) == 11 && c[11] == '.'
    ensures SpaceRunEnd(c, 12) == 13 && TokenEnd(c, 13) == 16
  {
    assert IsDigit(c[10]) && !IsDigit(c[11]);
    assert IsSpace(c[12]) && !IsSpace(c[13]);
    assert !IsSpace(c[14]) && !IsSpace(c[15]) && IsSpace(c[16]);
  }

  lemma SecondBlackScan(c: string)
    requires c == "1. e4  e5 2. Nf3 Nc6"
    ensures SpaceRunEnd(c, 16) == 17 && c[17] != '{' && TokenEnd(c, 17) == 20
  {
    assert !IsSpace(c[17]);
    assert !IsSpace(c[18]) && !IsSpace(c[19]);
  }

  /**
   * A match with no `{...}` group: number run `s[i..q]`, dot, white token
   * `s[r..t]`, whitespace, black token `s[b..e]`.
   */
  lemma PlainMoveAt(s: string, i: nat, q: nat, r: nat, t: nat, b: nat, e: nat)
    requires i < |s| && IsDigit(s[i]) && DigitRunEnd(s, i) == q && q < |s| && s[q] == '.'
    requires SpaceRunEnd(s, q + 1) == r && TokenEnd(s, r) == t && r < t
    requires SpaceRunEnd(s, t) == b && (b == |s| || s[b] != '{') && TokenEnd(s, b) == e
    ensures MatchMoveAt(s, i) == Some(MoveMatch(s[r..t], s[b..e], e))
  {
    assert SpaceRunEnd(s, b) == b;
  }

  /** `findall` skips the blank between the matches and finds exactly two. */
  lemma MatchesExample(c: string)
    requires c == "1. e4  e5 2. Nf3 Nc6"
    ensures MoveMatches(c, 0) == [MoveMatch("e4", "e5", 9), MoveMatch("Nf3", "Nc6", 20)]
  {
    FirstMatchExample(c);
    BlankSkipExample(c);
    SecondMatchExample(c);
  }

  lemma FirstMatchExample(c: string)
    requires c == "1. e4  e5 2. Nf3 Nc6"
    ensures MoveMatches(c, 0) == [MoveMatch("e4", "e5", 9)] + MoveMatches(c, 9)
  {
    FirstMoveExample(c);
  }

  lemma BlankSkipExample(c: string)
    requires c == "1. e4  e5 2. Nf3 Nc6"
    ensures MoveMatches(c, 9) == MoveMatches(c, 10)
  {
    assert !IsDigit(c[9]);
    assert MatchMoveAt(c, 9) == None;
  }

  lemma SecondMatchExample(c: string)
    requires c == "1. e4  e5 2. Nf3 Nc6"
    ensures MoveMatches(c, 10) == [MoveMatch("Nf3", "Nc6", 20)]
  {
    SecondMoveExample(c);
    assert MoveMatches(c, 20) == [];
  }

  lemma FlattenExample(ms: seq<MoveMatch>)
    requires ms == [MoveMatch("e4", "e5", 9), MoveMatch("Nf3", "Nc6", 20)]
    ensures Flatten(ms) == ["e4", "e5", "Nf3", "Nc6"]
  {
    var first := ms[..1];
    assert first[..0] == [] && first[0] == ms[0];
    assert KeepToken("e4") && KeepToken("e5");
    assert Flatten(first) == ["e4", "e5"];
    assert KeepToken("Nf3") && KeepToken("Nc6");
    assert ms[..|ms| - 1] == first;
  }

  /** A comment between White's and Black's move does not lose Black's move. */
  lemma CommentBetweenHalfMoves(p: string)
    requires p == "1. e4 {good move} e5 2. Nf3 Nc6"
    ensures ExtractMoves(p) == ["e4", "e5", "Nf3", "Nc6"]
  {
    var c := "1. e4  e5 2. Nf3 Nc6";
    CleanCommentExample(p, "1. e4 ", "{good move}", " e5 2. Nf3 Nc6", c);
    MatchesExample(c);
    FlattenExample(MoveMatches(c, 0));
  }

  /** A reading with a fractional part: `[%clk 1:02:03.5]` is 3723.5 seconds. */
  lemma ClockExample(s: string)
    requires s == "[%clk 1:02:03.5]"
    ensures MatchClockAt(s, 0).Some?
    ensures ClockSeconds(MatchClockAt(s, 0).value.0) == 3723.5
    ensures MatchClockAt(s, 0).value.1 == |s|
  {
    ClockScan(s);
    ClockDigits(s);
  }

  lemma ClockScan(s: string)
    requires s == "[%clk 1:02:03.5]"
    ensures s[0..6] == "[%clk "
    ensures DigitRunEnd(s, 6) == 7 && s[7] == ':' && DigitRunEnd(s, 8) == 10 && s[10] == ':'
    ensures DigitRunEnd(s, 11) == 13 && s[13] == '.' && DigitRunEnd(s, 14) == 15 && s[15] == ']'
  {
    assert s[0..6] == "[%clk ";
    assert IsDigit(s[6]) && !IsDigit(s[7]);
    assert IsDigit(s[8]) && IsDigit(s[9]) && !IsDigit(s[10]);
    assert IsDigit(s[11]) && IsDigit(s[12]) && !IsDigit(s[13]);
    assert IsDigit(s[14]) && !IsDigit(s[15]);
  }

  lemma ClockDigits(s: string)
    requires s == "[%clk 1:02:03.5]"
    ensures NumberAt(s, 6, 7) == 1 && NumberAt(s, 8, 10) == 2 && NumberAt(s, 11, 13) == 3
    ensures FractionAt(s, 14, 15) == 0.5
  {
    assert s[6..7] == "1" && DigitsValue("1") == 1;
    assert s[8..10] == "02" && DigitsValue("02") == 2;
    assert s[11..13] == "03" && DigitsValue("03") == 3;
    assert s[14..15] == "5" && DigitsValue("5") == 5;
    assert Pow10(1) == 10;
  }

}
