/**
 * Character classes and string operations used by the analyzer: the character
 * classes of Python's `re` module as the patterns use them, ASCII lower-casing,
 * substring search (`needle in haystack`), `' '.join`, and the pieces of
 * `str.split('/')[-1]` and `str.replace('-', ' ')`.
 */
module Text {

  /** `\s` in a `str` pattern: the characters for which `str.isspace()` holds. */
  predicate IsSpace(c: char) {
    || c == ' '
    || '\t' <= c <= '\r'
    || '\U{1c}' <= c <= '\U{1f}'
    || c == '\U{85}' || c == '\U{a0}' || c == '\U{1680}'
    || '\U{2000}' <= c <= '\U{200a}'
    || c == '\U{2028}' || c == '\U{2029}' || c == '\U{202f}' || c == '\U{205f}' || c == '\U{3000}'
  }

  /** `\d`, restricted to the ASCII digits. */
  predicate IsDigit(c: char) {
    '0' <= c <= '9'
  }

  /** A file letter `a`-`h`, the leading character of a pawn move in SAN. */
  predicate IsFile(c: char) {
    'a' <= c <= 'h'
  }

  /** The value of a run of ASCII digits, as Python's `int()` reads it. */
  function DigitsValue(ds: string): (v: nat)
    requires forall k :: 0 <= k < |ds| ==> IsDigit(ds[k])
  {
    if ds == [] then 0
    else
      assert IsDigit(ds[|ds| - 1]);
      10 * DigitsValue(ds[..|ds| - 1]) + (ds[|ds| - 1] as int - '0' as int)
  }

  /** `10 ** n`. */
  function Pow10(n: nat): (p: nat)
    ensures p >= 1
  {
    if n == 0 then 1 else 10 * Pow10(n - 1)
  }

  /** ASCII lower-casing of one character. */
  function LowerChar(c: char): char {
    if 'A' <= c <= 'Z' then (c as int - 'A' as int + 'a' as int) as char else c
  }

  /** `s.lower()` on ASCII letters. */
  function ToLower(s: string): (r: string)
    ensures |r| == |s|
    ensures forall k :: 0 <= k < |s| ==> r[k] == LowerChar(s[k])
  {
    seq(|s|, k requires 0 <= k < |s| => LowerChar(s[k]))
  }

  /** `needle` occurs in `haystack` starting at index `k`. */
  predicate OccursAt(haystack: string, needle: string, k: int) {
    0 <= k && k + |needle| <= |haystack| && haystack[k..k + |needle|] == needle
  }

  /** Python's `needle in haystack` for strings: `needle` occurs somewhere in `haystack`. */
  predicate Contains(haystack: string, needle: string) {
    exists k :: 0 <= k <= |haystack| - |needle| && OccursAt(haystack, needle, k)
  }

  /** A single-character needle occurs exactly when the character does. */
  lemma ContainsChar(haystack: string, c: char)
    ensures Contains(haystack, [c]) <==> c in haystack
  {
    if c in haystack {
      var k :| 0 <= k < |haystack| && haystack[k] == c;
      assert haystack[k..k + 1] == [c];
      assert OccursAt(haystack, [c], k);
    }
    if Contains(haystack, [c]) {
      var k :| 0 <= k <= |haystack| - 1 && OccursAt(haystack, [c], k);
      assert haystack[k] == haystack[k..k + 1][0] == c;
    }
  }

  /** `sep.join(words)`. */
  function Join(words: seq<string>, sep: string): (r: string)
  {
    if words == [] then ""
    else if |words| == 1 then words[0]
    else Join(words[..|words| - 1], sep) + sep + words[|words| - 1]
  }

  /** Every character of a joined text comes from one of the words or from the separator. */
  lemma {:induction false} JoinChars(words: seq<string>, sep: string, c: char)
    ensures c in Join(words, sep) ==> c in sep || exists w :: w in words && c in w
  {
    if |words| > 1 {
      var init := words[..|words| - 1];
      JoinChars(init, sep, c);
      if c in Join(init, sep) && c !in sep {
        var w :| w in init && c in w;
        assert w in words;
      }
    }
  }

  /** Every character of every word appears in the joined text. */
  lemma {:induction false} JoinKeepsChars(words: seq<string>, sep: string, i: nat, c: char)
    requires i < |words| && c in words[i]
    ensures c in Join(words, sep)
  {
    if |words| > 1 && i < |words| - 1 {
      JoinKeepsChars(words[..|words| - 1], sep, i, c);
    }
  }

  /**
   * The start of the last `/`-separated segment: the index just past the last
   * `/`, or 0 when there is none, so that `s[LastSegmentStart(s)..]` is
   * `s.split('/')[-1]`.
   */
  function LastSegmentStart(s: string): (k: nat)
    ensures k <= |s|
    ensures k == 0 || s[k - 1] == '/'
    ensures forall j :: k <= j < |s| ==> s[j] != '/'
  {
    if s == [] then 0
    else if s[|s| - 1] == '/' then |s|
    else LastSegmentStart(s[..|s| - 1])
  }

  /** `s.replace(from, to)` for single characters. */
  function ReplaceChar(s: string, from: char, to: char): (r: string)
    ensures |r| == |s|
    ensures forall k :: 0 <= k < |s| ==> r[k] == (if s[k] == from then to else s[k])
  {
    seq(|s|, k requires 0 <= k < |s| => if s[k] == from then to else s[k])
  }

  /** An ASCII letter. */
  predicate IsLetter(c: char) {
    'a' <= c <= 'z' || 'A' <= c <= 'Z'
  }

  /** ASCII upper-casing of one character. */
  function UpperChar(c: char): char {
    if 'a' <= c <= 'z' then (c as int - 'a' as int + 'A' as int) as char else c
  }

  /** `s.title()` on ASCII: a letter that starts a word is upper-cased, every other letter lower-cased. */
  function Titled(s: string): (r: string)
    ensures |r| == |s|
  {
    seq(|s|, k requires 0 <= k < |s| => if k == 0 || !IsLetter(s[k - 1]) then UpperChar(s[k]) else LowerChar(s[k]))
  }
}
