/**
 * Grouping a list by a key, the way the metric code fills a `defaultdict`:
 * one pass over the list, each element folded into the entry for its key,
 * keys kept in order of first insertion. Also the histograms built that way
 * and `max(d.items(), key=count)`, which picks the first maximal entry.
 */
module Grouping {
  import opened Wrappers
  import opened Tally

  /** Some element of `s` has key `k`. */
  predicate HasKey<T, K(==)>(s: seq<T>, key: T -> K, k: K) {
    exists i :: 0 <= i < |s| && key(s[i]) == k
  }

  /** The distinct keys of `s`, in the order a dict filled from `s` first inserts them. */
  function Keys<T, K(==)>(s: seq<T>, key: T -> K): (ks: seq<K>)
    ensures |ks| <= |s|
    ensures forall i, j :: 0 <= i < j < |ks| ==> ks[i] != ks[j]
  {
    if s == [] then []
    else
      var ks := Keys(s[..|s| - 1], key);
      if key(s[|s| - 1]) in ks then ks else ks + [key(s[|s| - 1])]
  }

  /** A key is listed exactly when some element carries it. */
  lemma {:induction false} KeysExactly<T, K>(s: seq<T>, key: T -> K, k: K)
    ensures k in Keys(s, key) <==> HasKey(s, key, k)
  {
    if s != [] {
      var init := s[..|s| - 1];
      KeysExactly(init, key, k);
      if HasKey(init, key, k) {
        var i :| 0 <= i < |init| && key(init[i]) == k;
        assert key(s[i]) == k;
      }
      if HasKey(s, key, k) && key(s[|s| - 1]) != k {
        var i :| 0 <= i < |s| && key(s[i]) == k;
        assert i < |s| - 1 && key(init[i]) == k;
      }
    }
  }

  /** No element with key `k` leaves nothing to select for `k`. */
  lemma SelectNone<T, K>(s: seq<T>, key: T -> K, k: K)
    requires !HasKey(s, key, k)
    ensures Select(s, key, k) == []
  {
  }

  /** Folding `step` over `s` from `zero`, left to right. */
  function Fold<T, A>(s: seq<T>, zero: A, step: (A, T) -> A): A {
    if s == [] then zero else step(Fold(s[..|s| - 1], zero, step), s[|s| - 1])
  }

  /** One more element is one more step. */
  lemma FoldSnoc<T, A>(s: seq<T>, x: T, zero: A, step: (A, T) -> A)
    ensures Fold(s + [x], zero, step) == step(Fold(s, zero, step), x)
  {
    assert (s + [x])[..|s|] == s;
  }

  /** Selecting from a list one element longer. */
  lemma SelectSnoc<T, K>(s: seq<T>, x: T, key: T -> K, k: K)
    ensures Select(s + [x], key, k) == Select(s, key, k) + (if key(x) == k then [x] else [])
  {
    assert (s + [x])[..|s|] == s;
  }

  /** Folding `step` over the elements of `s` that satisfy `p`: a loop that updates its accumulator only for those. */
  function FoldWhere<T, A>(s: seq<T>, p: T -> bool, zero: A, step: (A, T) -> A): A {
    if s == [] then zero
    else
      var acc := FoldWhere(s[..|s| - 1], p, zero, step);
      if p(s[|s| - 1]) then step(acc, s[|s| - 1]) else acc
  }

  /** Updating only for the elements that satisfy `p` is folding over the filtered list. */
  lemma {:induction false} FoldWhereIsFoldFilter<T, A>(s: seq<T>, p: T -> bool, zero: A, step: (A, T) -> A)
    ensures FoldWhere(s, p, zero, step) == Fold(Filter(s, p), zero, step)
  {
    if s != [] {
      FoldWhereIsFoldFilter(s[..|s| - 1], p, zero, step);
      if p(s[|s| - 1]) {
        FoldSnoc(Filter(s[..|s| - 1], p), s[|s| - 1], zero, step);
      } else {
        assert Filter(s, p) == Filter(s[..|s| - 1], p);
      }
    }
  }

  /** The dict `defaultdict(lambda: zero)` holds after folding each element of `s` into the entry for its key. */
  function Groups<T, K(==), A>(s: seq<T>, key: T -> K, zero: A, step: (A, T) -> A): map<K, A> {
    if s == [] then map[]
    else
      var groups := Groups(s[..|s| - 1], key, zero, step);
      var k := key(s[|s| - 1]);
      groups[k := step(if k in groups then groups[k] else zero, s[|s| - 1])]
  }

  /** The dict has an entry for exactly the keys that occur, and each entry is the fold of the elements with that key. */
  lemma {:induction false} GroupsAt<T, K, A>(s: seq<T>, key: T -> K, zero: A, step: (A, T) -> A, k: K)
    ensures k in Groups(s, key, zero, step) <==> k in Keys(s, key)
    ensures k in Groups(s, key, zero, step) ==> Groups(s, key, zero, step)[k] == Fold(Select(s, key, k), zero, step)
  {
    if s != [] {
      var init := s[..|s| - 1];
      var x := s[|s| - 1];
      GroupsAt(init, key, zero, step, k);
      if key(x) == k {
        assert Select(s, key, k) == Select(init, key, k) + [x];
        FoldSnoc(Select(init, key, k), x, zero, step);
        if k !in Groups(init, key, zero, step) {
          KeysExactly(init, key, k);
          SelectNone(init, key, k);
        }
      } else {
        assert Select(s, key, k) == Select(init, key, k);
      }
    }
  }

  /**
   * The loop `for x in s: d[key(x)] = step(d[key(x)], x)` over a
   * `defaultdict(lambda: zero)`: the keys in insertion order and, for each
   * key, the fold of the elements carrying it.
   */
  method GroupFold<T, K(==), A>(s: seq<T>, key: T -> K, zero: A, step: (A, T) -> A)
    returns (keys: seq<K>, groups: map<K, A>)
    ensures keys == Keys(s, key)
    ensures forall k :: k in groups <==> k in keys
    ensures forall k :: k in groups ==> groups[k] == Fold(Select(s, key, k), zero, step)
  {
    keys := [];
    groups := map[];
    for i := 0 to |s|
      invariant keys == Keys(s[..i], key)
      invariant groups == Groups(s[..i], key, zero, step)
    {
      var k := key(s[i]);
      assert s[..i + 1][..i] == s[..i];
      GroupsAt(s[..i], key, zero, step, k);
      if k in groups {
        groups := groups[k := step(groups[k], s[i])];
      } else {
        keys := keys + [k];
        groups := groups[k := step(zero, s[i])];
      }
    }
    assert s[..|s|] == s;
    forall k
      ensures k in groups <==> k in keys
      ensures k in groups ==> groups[k] == Fold(Select(s, key, k), zero, step)
    {
      GroupsAt(s, key, zero, step, k);
    }
  }

  /** The groups' values, listed in the order of their keys. */
  method ValuesInOrder<K, A>(keys: seq<K>, groups: map<K, A>) returns (values: seq<A>)
    requires forall k :: k in keys ==> k in groups
    ensures |values| == |keys|
    ensures forall i :: 0 <= i < |keys| ==> values[i] == groups[keys[i]]
  {
    values := [];
    for i := 0 to |keys|
      invariant |values| == i
      invariant forall j :: 0 <= j < i ==> values[j] == groups[keys[j]]
    {
      values := values + [groups[keys[i]]];
    }
  }

  /** `l.append(x)` as a fold step. */
  function Append<T>(l: seq<T>, x: T): seq<T> {
    l + [x]
  }

  /** Appending every element to an empty list rebuilds the list. */
  lemma {:induction false} FoldAppend<T>(s: seq<T>)
    ensures Fold(s, [], Append) == s
  {
    if s != [] {
      FoldAppend(s[..|s| - 1]);
    }
  }

  /** `Counter(key(x) for x in s)` as its `items()`: each key once, in insertion order, with its count. */
  function Histogram<T, K(==)>(s: seq<T>, key: T -> K): (h: seq<(K, nat)>)
    ensures |h| == |Keys(s, key)|
    ensures forall i :: 0 <= i < |h| ==> h[i].0 == Keys(s, key)[i] && h[i].1 == |Select(s, key, h[i].0)|
  {
    var ks := Keys(s, key);
    seq(|ks|, i requires 0 <= i < |ks| => (ks[i], |Select(s, key, ks[i])|))
  }

  /** Every listed key occurs, so every count of a histogram is positive. */
  lemma HistogramPositive<T, K>(s: seq<T>, key: T -> K, i: nat)
    requires i < |Histogram(s, key)|
    ensures Histogram(s, key)[i].1 > 0
  {
    var k := Keys(s, key)[i];
    KeysExactly(s, key, k);
    var j :| 0 <= j < |s| && key(s[j]) == k;
    SelectHas(s, key, j);
  }

  /** The counts of a histogram added up. */
  function SumCounts<K>(h: seq<(K, nat)>): nat {
    if h == [] then 0 else SumCounts(h[..|h| - 1]) + h[|h| - 1].1
  }

  /** The histogram with the count of entry `j` raised by one. */
  function Bumped<K>(h: seq<(K, nat)>, j: nat): (r: seq<(K, nat)>)
    requires j < |h|
    ensures |r| == |h|
  {
    var e: (K, nat) := (h[j].0, h[j].1 + 1);
    h[j := e]
  }

  /** Raising one count by one raises the total by one. */
  lemma {:induction false} SumCountsBump<K>(h: seq<(K, nat)>, j: nat)
    requires j < |h|
    ensures SumCounts(Bumped(h, j)) == SumCounts(h) + 1
  {
    var h' := Bumped(h, j);
    if j < |h| - 1 {
      assert h'[..|h'| - 1] == Bumped(h[..|h| - 1], j);
      SumCountsBump(h[..|h| - 1], j);
    } else {
      assert h'[..|h'| - 1] == h[..|h| - 1];
    }
  }

  /** Appending an element whose key is already listed raises that key's count. */
  lemma HistogramSnocKnown<T, K>(s: seq<T>, x: T, key: T -> K, j: nat)
    requires j < |Keys(s, key)| && Keys(s, key)[j] == key(x)
    ensures Histogram(s + [x], key) == Bumped(Histogram(s, key), j)
  {
    assert (s + [x])[..|s|] == s;
    var h := Histogram(s, key);
    var h' := Histogram(s + [x], key);
    forall i | 0 <= i < |h'|
      ensures h'[i] == Bumped(h, j)[i]
    {
      SelectSnoc(s, x, key, h[i].0);
    }
  }

  /** Appending an element with a new key adds that key with count one. */
  lemma HistogramSnocNew<T, K>(s: seq<T>, x: T, key: T -> K)
    requires key(x) !in Keys(s, key)
    ensures Histogram(s + [x], key) == Histogram(s, key) + [(key(x), 1)]
  {
    assert (s + [x])[..|s|] == s;
    KeysExactly(s, key, key(x));
    SelectNone(s, key, key(x));
    var h := Histogram(s, key);
    var h' := Histogram(s + [x], key);
    forall i | 0 <= i < |h'|
      ensures h'[i] == (h + [(key(x), 1)])[i]
    {
      SelectSnoc(s, x, key, Keys(s + [x], key)[i]);
    }
  }

  /** A histogram accounts for every element exactly once: its counts add up to the length of the list. */
  lemma {:induction false} HistogramTotal<T, K>(s: seq<T>, key: T -> K)
    ensures SumCounts(Histogram(s, key)) == |s|
  {
    if s != [] {
      var init := s[..|s| - 1];
      var x := s[|s| - 1];
      assert s == init + [x];
      var ks := Keys(init, key);
      var h := Histogram(init, key);
      HistogramTotal(init, key);
      if key(x) in ks {
        var j :| 0 <= j < |ks| && ks[j] == key(x);
        HistogramSnocKnown(init, x, key, j);
        SumCountsBump(h, j);
      } else {
        HistogramSnocNew(init, x, key);
        assert (h + [(key(x), 1)])[..|h|] == h;
      }
    }
  }

  /** Some entry of `h` carries key `k`. */
  predicate Listed<K(==)>(h: seq<(K, nat)>, k: K) {
    exists i :: 0 <= i < |h| && h[i].0 == k
  }

  /** A key listed after the first entry is listed in the tail. */
  lemma ListedTail<K>(h: seq<(K, nat)>, k: K)
    requires Listed(h, k) && h[0].0 != k
    ensures Listed(h[1..], k)
  {
    var i :| 0 <= i < |h| && h[i].0 == k;
    assert h[1..][i - 1].0 == k;
  }

  /** The position of the entry carrying `k`: the first one, and the only one in a dict's items. */
  function KeyIndex<K(==)>(h: seq<(K, nat)>, k: K): (j: nat)
    requires Listed(h, k)
    ensures j < |h| && h[j].0 == k
    ensures forall i :: 0 <= i < j ==> h[i].0 != k
  {
    if h[0].0 == k then 0
    else
      ListedTail(h, k);
      1 + KeyIndex(h[1..], k)
  }

  /** `d[k] += 1` on a `defaultdict(int)` seen as its `items()`: bump the entry for `k`, or append it with count 1. */
  function Tick<K(==)>(h: seq<(K, nat)>, k: K): (r: seq<(K, nat)>)
    ensures |r| == if Listed(h, k) then |h| else |h| + 1
  {
    if Listed(h, k) then Bumped(h, KeyIndex(h, k)) else h + [(k, 1)]
  }

  /** The counter the loop `for x in s: d[key(x)] += 1` leaves, as its `items()`. */
  function Counted<T, K(==)>(s: seq<T>, key: T -> K): seq<(K, nat)> {
    if s == [] then [] else Tick(Counted(s[..|s| - 1], key), key(s[|s| - 1]))
  }

  /** Counting one key at a time builds the histogram: every key once, in insertion order, with its number of elements. */
  lemma {:induction false} CountedIsHistogram<T, K>(s: seq<T>, key: T -> K)
    ensures Counted(s, key) == Histogram(s, key)
  {
    if s != [] {
      var init := s[..|s| - 1];
      var x := s[|s| - 1];
      assert s == init + [x];
      CountedIsHistogram(init, key);
      var h := Histogram(init, key);
      if Listed(h, key(x)) {
        HistogramSnocKnown(init, x, key, KeyIndex(h, key(x)));
      } else {
        HistogramSnocNew(init, x, key);
      }
    }
  }

  /** The count an entry of a histogram carries. */
  function CountOf<K>(entry: (K, nat)): nat {
    entry.1
  }

  /**
   * `max(items, key=count)[0]`, or `None` for no items: the key of the first
   * entry whose count no entry exceeds.
   */
  function MostCommon<K>(items: seq<(K, nat)>): (r: Option<K>)
    ensures r.None? <==> items == []
    ensures r.Some? ==> exists i :: 0 <= i < |items| && items[i].0 == r.value && IsFirstMax(items, i)
  {
    if items == [] then None
    else
      var i := FirstMax(items);
      Some(items[i].0)
  }

  /** Entry `i` has a maximal count, and every earlier entry a smaller one. */
  predicate IsFirstMax<K>(items: seq<(K, nat)>, i: nat) {
    && i < |items|
    && (forall j :: 0 <= j < |items| ==> items[j].1 <= items[i].1)
    && (forall j :: 0 <= j < i ==> items[j].1 < items[i].1)
  }

  /** Python's `max` scan: the running best is replaced only by a strictly larger count. */
  function FirstMax<K>(items: seq<(K, nat)>): (i: nat)
    requires items != []
    ensures IsFirstMax(items, i)
  {
    if |items| == 1 then 0
    else
      var best := FirstMax(items[..|items| - 1]);
      if items[|items| - 1].1 > items[best].1 then |items| - 1 else best
  }
}
