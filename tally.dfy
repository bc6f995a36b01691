/**
 * The aggregation vocabulary shared by the metric folds: counting
 * (`sum(1 for x in s if p(x))`), sub-lists by key (the per-key lists of a
 * `defaultdict`), sums, guarded ratios, Python slicing `s[:n]`, and Python's
 * stable sort.
 */
module Tally {

  /** `sum(1 for x in s if p(x))`. */
  function Count<T>(s: seq<T>, p: T -> bool): (n: nat)
    ensures n <= |s|
  {
    if s == [] then 0 else Count(s[..|s| - 1], p) + (if p(s[|s| - 1]) then 1 else 0)
  }

  /** Counting over a concatenation adds up. */
  lemma {:induction false} CountAppend<T>(a: seq<T>, b: seq<T>, p: T -> bool)
    ensures Count(a + b, p) == Count(a, p) + Count(b, p)
  {
    if b != [] {
      assert (a + b)[..|a + b| - 1] == a + b[..|b| - 1];
      CountAppend(a, b[..|b| - 1], p);
    } else {
      assert a + b == a;
    }
  }

  /** A weaker predicate counts at least as many elements. */
  lemma {:induction false} CountMono<T>(s: seq<T>, p: T -> bool, q: T -> bool)
    requires forall k :: 0 <= k < |s| && p(s[k]) ==> q(s[k])
    ensures Count(s, p) <= Count(s, q)
  {
    if s != [] {
      CountMono(s[..|s| - 1], p, q);
    }
  }

  /** When `r` is the disjoint union of `p` and `q` on `s`, the counts add up. */
  lemma {:induction false} CountDisjoint<T>(s: seq<T>, p: T -> bool, q: T -> bool, r: T -> bool)
    requires forall k :: 0 <= k < |s| ==> (r(s[k]) <==> p(s[k]) || q(s[k])) && !(p(s[k]) && q(s[k]))
    ensures Count(s, r) == Count(s, p) + Count(s, q)
  {
    if s != [] {
      CountDisjoint(s[..|s| - 1], p, q, r);
    }
  }

  /** A predicate that holds everywhere counts every element. */
  lemma {:induction false} CountEverything<T>(s: seq<T>, p: T -> bool)
    requires forall k :: 0 <= k < |s| ==> p(s[k])
    ensures Count(s, p) == |s|
  {
    if s != [] {
      CountEverything(s[..|s| - 1], p);
    }
  }

  /** The elements of `s` whose key is `k`, in order: the list a `defaultdict` keyed by `key` collects for `k`. */
  function Select<T, K(==)>(s: seq<T>, key: T -> K, k: K): (r: seq<T>)
    ensures |r| <= |s|
    ensures forall x :: x in r ==> x in s && key(x) == k
  {
    if s == [] then []
    else Select(s[..|s| - 1], key, k) + (if key(s[|s| - 1]) == k then [s[|s| - 1]] else [])
  }

  /** An element whose key is `k` lands in the selection for `k`. */
  lemma {:induction false} SelectHas<T, K>(s: seq<T>, key: T -> K, i: nat)
    requires i < |s|
    ensures s[i] in Select(s, key, key(s[i]))
  {
    if i < |s| - 1 {
      SelectHas(s[..|s| - 1], key, i);
    }
  }

  /** `[x for x in s if p(x)]`. */
  function Filter<T>(s: seq<T>, p: T -> bool): (r: seq<T>)
    ensures |r| == Count(s, p)
    ensures forall k :: 0 <= k < |r| ==> p(r[k]) && r[k] in s
  {
    if s == [] then [] else Filter(s[..|s| - 1], p) + (if p(s[|s| - 1]) then [s[|s| - 1]] else [])
  }

  /** Splitting a list by `p` and its negation splits every count over it. */
  lemma {:induction false} CountSplit<T>(s: seq<T>, p: T -> bool, notP: T -> bool, q: T -> bool)
    requires forall k :: 0 <= k < |s| ==> (notP(s[k]) <==> !p(s[k]))
    ensures Count(Filter(s, p), q) + Count(Filter(s, notP), q) == Count(s, q)
  {
    if s != [] {
      var x := s[|s| - 1];
      CountSplit(s[..|s| - 1], p, notP, q);
      CountAppend(Filter(s[..|s| - 1], p), if p(x) then [x] else [], q);
      CountAppend(Filter(s[..|s| - 1], notP), if notP(x) then [x] else [], q);
      assert Count([x], q) == Count([], q) + (if q(x) then 1 else 0);
    }
  }

  /** Counting over a list one element longer. */
  lemma CountSnoc<T>(s: seq<T>, x: T, p: T -> bool)
    ensures Count(s + [x], p) == Count(s, p) + (if p(x) then 1 else 0)
  {
    assert (s + [x])[..|s|] == s;
  }

  /** Nothing is selected exactly when no element satisfies `p`. */
  lemma {:induction false} FilterEmpty<T>(s: seq<T>, p: T -> bool)
    ensures Filter(s, p) == [] <==> forall k :: 0 <= k < |s| ==> !p(s[k])
  {
    if s != [] {
      var n := |s| - 1;
      FilterEmpty(s[..n], p);
      assert forall k :: 0 <= k < n ==> s[..n][k] == s[k];
    }
  }

  /** `Filter` over a list one element longer. */
  lemma FilterSnoc<T>(s: seq<T>, x: T, p: T -> bool)
    ensures Filter(s + [x], p) == Filter(s, p) + (if p(x) then [x] else [])
  {
    assert (s + [x])[..|s|] == s;
  }

  /** A prefix one element longer is the shorter prefix and that element. */
  lemma PrefixSnoc<T>(s: seq<T>, i: nat)
    requires i < |s|
    ensures s[..i + 1] == s[..i] + [s[i]]
  {
  }

  /** `sum(f(x) for x in s)` over a list one element longer. */
  lemma SumSnoc<T>(s: seq<T>, x: T, f: T -> int)
    ensures Sum(s + [x], f) == Sum(s, f) + f(x)
  {
    assert (s + [x])[..|s|] == s;
  }

  /** Summing over the elements that satisfy `p` of a list one element longer. */
  lemma SumFilterSnoc<T>(s: seq<T>, x: T, p: T -> bool, f: T -> int)
    ensures Sum(Filter(s + [x], p), f) == Sum(Filter(s, p), f) + (if p(x) then f(x) else 0)
  {
    FilterSnoc(s, x, p);
    if p(x) {
      SumSnoc(Filter(s, p), x, f);
    } else {
      assert Filter(s + [x], p) == Filter(s, p);
    }
  }

  /** `if p(x): count += 1` over one more element. */
  method CountWhen<T>(s: seq<T>, x: T, p: T -> bool, count: nat) returns (count': nat)
    requires count == Count(s, p)
    ensures count' == Count(s + [x], p)
  {
    CountSnoc(s, x, p);
    count' := count;
    if p(x) {
      count' := count' + 1;
    }
  }

  /** `if p(x): total += f(x); count += 1` over one more element. */
  method AddWhen<T>(s: seq<T>, x: T, p: T -> bool, f: T -> int, total: int, count: nat) returns (total': int, count': nat)
    requires total == Sum(Filter(s, p), f) && count == Count(s, p)
    ensures total' == Sum(Filter(s + [x], p), f) && count' == Count(s + [x], p)
  {
    SumFilterSnoc(s, x, p, f);
    CountSnoc(s, x, p);
    total', count' := total, count;
    if p(x) {
      total' := total' + f(x);
      count' := count' + 1;
    }
  }

  /** `[f(x) for x in s]`. */
  function MapSeq<T, U>(s: seq<T>, f: T -> U): (r: seq<U>)
    ensures |r| == |s|
    ensures forall k :: 0 <= k < |s| ==> r[k] == f(s[k])
  {
    seq(|s|, k requires 0 <= k < |s| => f(s[k]))
  }

  /** `[f(x) for x in s]` over a list one element longer. */
  lemma MapSeqSnoc<T, U>(s: seq<T>, x: T, f: T -> U)
    ensures MapSeq(s + [x], f) == MapSeq(s, f) + [f(x)]
  {
  }

  /** `sum(f(x) for x in s)`. */
  function Sum<T>(s: seq<T>, f: T -> int): int {
    if s == [] then 0 else Sum(s[..|s| - 1], f) + f(s[|s| - 1])
  }

  /** `sum(f(x) for x in s)` over real values. */
  function SumReal<T>(s: seq<T>, f: T -> real): real {
    if s == [] then 0.0 else SumReal(s[..|s| - 1], f) + f(s[|s| - 1])
  }

  /** `sum(s)` of a list of reals. */
  function Total(s: seq<real>): real {
    if s == [] then 0.0 else Total(s[..|s| - 1]) + s[|s| - 1]
  }

  /** Summing over a concatenation adds up. */
  lemma {:induction false} TotalAppend(a: seq<real>, b: seq<real>)
    ensures Total(a + b) == Total(a) + Total(b)
  {
    if b != [] {
      assert (a + b)[..|a + b| - 1] == a + b[..|b| - 1];
      TotalAppend(a, b[..|b| - 1]);
    } else {
      assert a + b == a;
    }
  }

  /** `part / whole * 100 if whole > 0 else 0`. */
  function Percent(part: nat, whole: nat): (r: real)
    ensures whole == 0 ==> r == 0.0
    ensures part <= whole ==> 0.0 <= r <= 100.0
  {
    if whole > 0 then part as real / whole as real * 100.0 else 0.0
  }

  /** `r` is the share `part` takes of `whole`, in percent: scaled back by the whole it is a hundred times the part. */
  predicate IsPercentOf(r: real, part: nat, whole: nat) {
    r * whole as real == 100.0 * part as real
  }

  /** A percentage of a positive whole is the share its part takes. */
  lemma PercentScales(part: nat, whole: nat)
    requires whole > 0
    ensures IsPercentOf(Percent(part, whole), part, whole)
  {
  }

  /** `total / n if n > 0 else 0`: the mean of `n` values summing to `total`. */
  function Average(total: real, n: nat): (r: real)
    ensures n == 0 ==> r == 0.0
  {
    if n > 0 then total / n as real else 0.0
  }

  /** `avg` is the mean of `n` values adding up to `total`: scaled back by `n` it is the total. */
  predicate IsMeanOf(avg: real, total: real, n: nat) {
    avg * n as real == total
  }

  /** An average over a positive number of values is their mean. */
  lemma AverageScales(total: real, n: nat)
    requires n > 0
    ensures IsMeanOf(Average(total, n), total, n)
  {
  }

  /** A sum of values between `lo` and `hi` lies between `lo` and `hi` times their number. */
  lemma {:induction false} TotalBounds(s: seq<real>, lo: real, hi: real)
    requires forall k :: 0 <= k < |s| ==> lo <= s[k] <= hi
    ensures lo * |s| as real <= Total(s) <= hi * |s| as real
  {
    if s != [] {
      TotalBounds(s[..|s| - 1], lo, hi);
    }
  }

  /** `sum(s) / len(s) if s else 0`. */
  function Mean(s: seq<real>): (r: real)
    ensures s == [] ==> r == 0.0
  {
    Average(Total(s), |s|)
  }

  /** A mean scaled back by the number of values is their total. */
  lemma MeanScales(s: seq<real>)
    requires s != []
    ensures IsMeanOf(Mean(s), Total(s), |s|)
  {
    AverageScales(Total(s), |s|);
  }

  /** Python's `s[:n]`. */
  function Take<T>(s: seq<T>, n: nat): (r: seq<T>)
    ensures |r| == if n < |s| then n else |s|
    ensures forall k :: 0 <= k < |r| ==> r[k] == s[k]
  {
    if n < |s| then s[..n] else s
  }

  /** `[x] * n`. */
  function Repeat<T>(x: T, n: nat): (r: seq<T>)
    ensures |r| == n
    ensures forall k :: 0 <= k < n ==> r[k] == x
  {
    if n == 0 then [] else Repeat(x, n - 1) + [x]
  }

  /** One more copy at the end. */
  lemma RepeatSnoc<T>(x: T, n: nat)
    ensures Repeat(x, n + 1) == Repeat(x, n) + [x]
  {
  }

  /** `before` is irreflexive and transitive: a strict order for "must come before". */
  ghost predicate StrictOrder<T(!new)>(before: (T, T) -> bool) {
    && (forall a :: !before(a, a))
    && (forall a, b, c :: before(a, b) && before(b, c) ==> before(a, c))
  }

  /** No element must come before one that precedes it in `s`. */
  ghost predicate SortedBy<T>(s: seq<T>, before: (T, T) -> bool) {
    forall i, j :: 0 <= i < j < |s| ==> !before(s[j], s[i])
  }

  /** Insert `x` into `s` in front of the first element it must come before, so that it stays after its equals. */
  function Insert<T>(x: T, s: seq<T>, before: (T, T) -> bool): (r: seq<T>)
    ensures multiset(r) == multiset(s) + multiset{x}
    ensures |r| == |s| + 1
  {
    if s == [] then [x]
    else if before(x, s[0]) then [x] + s
    else
      assert s == [s[0]] + s[1..];
      [s[0]] + Insert(x, s[1..], before)
  }

  /** Python's stable `sorted`: insertion sort taking the elements in their original order. */
  function SortBy<T>(s: seq<T>, before: (T, T) -> bool): (r: seq<T>)
    ensures multiset(r) == multiset(s)
    ensures |r| == |s|
  {
    if s == [] then []
    else
      var r := Insert(s[|s| - 1], SortBy(s[..|s| - 1], before), before);
      assert s == s[..|s| - 1] + [s[|s| - 1]];
      assert multiset(r) == multiset(s);
      r
  }

  /** Inserting into a sorted list keeps it sorted. */
  lemma {:induction false} InsertSorted<T(!new)>(x: T, s: seq<T>, before: (T, T) -> bool)
    requires StrictOrder(before)
    requires SortedBy(s, before)
    ensures SortedBy(Insert(x, s, before), before)
  {
    if s != [] && !before(x, s[0]) {
      InsertSorted(x, s[1..], before);
      var r := Insert(x, s[1..], before);
      forall k | 0 <= k < |r|
        ensures !before(r[k], s[0])
      {
        assert r[k] in multiset(r);
        assert r[k] in multiset(s[1..]) + multiset{x};
        if r[k] != x {
          assert r[k] in s[1..];
        }
      }
    }
  }

  /** The stable sort yields a sorted list. */
  lemma {:induction false} SortBySorted<T(!new)>(s: seq<T>, before: (T, T) -> bool)
    requires StrictOrder(before)
    ensures SortedBy(SortBy(s, before), before)
  {
    if s != [] {
      SortBySorted(s[..|s| - 1], before);
      InsertSorted(s[|s| - 1], SortBy(s[..|s| - 1], before), before);
    }
  }

  /**
   * `s[:n]` of a sorted list keeps its first min(n, len) entries, and no entry
   * left out must come before one that was kept.
   */
  lemma TakeOfSorted<T>(s: seq<T>, n: nat, before: (T, T) -> bool)
    requires SortedBy(s, before)
    ensures |Take(s, n)| == if n < |s| then n else |s|
    ensures forall k, x :: 0 <= k < |Take(s, n)| && x in s && x !in Take(s, n) ==> !before(x, Take(s, n)[k])
  {
    var kept := Take(s, n);
    forall k, x | 0 <= k < |kept| && x in s && x !in kept
      ensures !before(x, kept[k])
    {
      var j :| 0 <= j < |s| && s[j] == x;
    }
  }

  /** The mean of values between `lo` and `hi` lies between them too. */
  lemma MeanBounds(s: seq<real>, lo: real, hi: real)
    requires s != []
    requires forall k :: 0 <= k < |s| ==> lo <= s[k] <= hi
    ensures lo <= Mean(s) <= hi
  {
    TotalBounds(s, lo, hi);
    var n := |s| as real;
    var m := Mean(s);
    MeanScales(s);
    assert m * n == Total(s);
    ScaleBack(lo, m, n);
    ScaleBack(m, hi, n);
  }

  /** Dividing both sides of `a * n <= b * n` by a positive `n`. */
  lemma ScaleBack(a: real, b: real, n: real)
    requires n > 0.0 && a * n <= b * n
    ensures a <= b
  {
  }

  /** The mean of positive values is positive. */
  lemma MeanPositive(s: seq<real>)
    requires s != []
    requires forall k :: 0 <= k < |s| ==> s[k] > 0.0
    ensures Mean(s) > 0.0
  {
    TotalPositive(s);
    MeanScales(s);
  }

  /** A non-empty sum of positive values is positive. */
  lemma {:induction false} TotalPositive(s: seq<real>)
    requires s != []
    requires forall k :: 0 <= k < |s| ==> s[k] > 0.0
    ensures Total(s) > 0.0
  {
    if |s| > 1 {
      TotalPositive(s[..|s| - 1]);
    }
  }
}
