/** Lower medians and nearest-rank percentiles, and what they say about counts. */
module OrderStats {
  import opened Common

  ghost predicate Sorted(s: seq<int>) {
    forall i, j :: 0 <= i < j < |s| ==> s[i] <= s[j]
  }

  function Insert(x: int, s: seq<int>): (r: seq<int>)
    ensures |r| == |s| + 1
  {
    if s == [] || x <= s[0] then [x] + s else [s[0]] + Insert(x, s[1..])
  }

  /** `sort_unstable` on integers. */
  function Sort(s: seq<int>): (r: seq<int>)
    ensures |r| == |s|
  {
    if s == [] then [] else Insert(s[0], Sort(s[1..]))
  }

  function CountAtMost(s: seq<int>, l: int): (n: nat)
    ensures n <= |s|
  {
    if s == [] then 0 else (if s[0] <= l then 1 else 0) + CountAtMost(s[1..], l)
  }

  ghost predicate AllAtLeast(s: seq<int>, l: int) {
    forall i :: 0 <= i < |s| ==> l <= s[i]
  }

  lemma {:induction false} InsertAtLeast(x: int, s: seq<int>, l: int)
    requires AllAtLeast(s, l) && l <= x
    ensures AllAtLeast(Insert(x, s), l)
  {
    if s != [] && x > s[0] { InsertAtLeast(x, s[1..], l); }
  }

  lemma SortedCons(x: int, s: seq<int>)
    requires Sorted(s) && AllAtLeast(s, x)
    ensures Sorted([x] + s)
  {
  }

  lemma {:induction false} InsertSorted(x: int, s: seq<int>)
    requires Sorted(s)
    ensures Sorted(Insert(x, s))
  {
    if s == [] || x <= s[0] {
      SortedCons(x, s);
    } else {
      InsertSorted(x, s[1..]);
      InsertAtLeast(x, s[1..], s[0]);
      SortedCons(s[0], Insert(x, s[1..]));
    }
  }

  lemma {:induction false} SortSorts(s: seq<int>)
    ensures Sorted(Sort(s))
  {
    if s != [] {
      SortSorts(s[1..]);
      InsertSorted(s[0], Sort(s[1..]));
    }
  }

  lemma {:induction false} CountInsert(x: int, s: seq<int>, l: int)
    ensures CountAtMost(Insert(x, s), l) == CountAtMost(s, l) + (if x <= l then 1 else 0)
  {
    if s == [] || x <= s[0] {
      assert ([x] + s)[1..] == s;
    } else {
      CountInsert(x, s[1..], l);
      assert ([s[0]] + Insert(x, s[1..]))[1..] == Insert(x, s[1..]);
    }
  }

  lemma {:induction false} CountSort(s: seq<int>, l: int)
    ensures CountAtMost(Sort(s), l) == CountAtMost(s, l)
  {
    if s != [] {
      CountSort(s[1..], l);
      CountInsert(s[0], Sort(s[1..]), l);
    }
  }

  lemma {:induction false} CountSorted(s: seq<int>, k: nat, l: int)
    requires Sorted(s) && k < |s|
    ensures s[k] <= l <==> CountAtMost(s, l) >= k + 1
    decreases |s|
  {
    if s[0] > l {
      CountNone(s, l);
    } else if k > 0 {
      CountSorted(s[1..], k - 1, l);
    }
  }

  lemma {:induction false} CountNone(s: seq<int>, l: int)
    requires forall i :: 0 <= i < |s| ==> s[i] > l
    ensures CountAtMost(s, l) == 0
  {
    if s != [] { CountNone(s[1..], l); }
  }

  lemma {:induction false} CountSnoc(s: seq<int>, x: int, l: int)
    ensures CountAtMost(s + [x], l) == CountAtMost(s, l) + (if x <= l then 1 else 0)
  {
    if s != [] {
      assert (s + [x])[1..] == s[1..] + [x];
      CountSnoc(s[1..], x, l);
    }
  }

  /** The element at rank `k` is within a limit exactly when more than `k` elements are. */
  lemma RankWithin(s: seq<int>, k: nat, l: int)
    requires k < |s|
    ensures Sort(s)[k] <= l <==> CountAtMost(s, l) >= k + 1
  {
    SortSorts(s);
    CountSort(s, l);
    CountSorted(Sort(s), k, l);
  }

  /** Sequences with the same counts have the same element at every rank. */
  lemma SameCountsSameRank(a: seq<int>, b: seq<int>, k: nat)
    requires |a| == |b| && k < |a|
    requires forall l :: CountAtMost(a, l) == CountAtMost(b, l)
    ensures Sort(a)[k] == Sort(b)[k]
  {
    RankWithin(a, k, Sort(a)[k]);
    RankWithin(b, k, Sort(a)[k]);
    RankWithin(a, k, Sort(b)[k]);
    RankWithin(b, k, Sort(b)[k]);
  }

  /** `median_i64` and `median_i32`. */
  function LowerMedian(s: seq<int>): int
    requires s != []
  {
    Sort(s)[(|s| - 1) / 2]
  }

  lemma MedianWithin(s: seq<int>, l: int)
    requires s != []
    ensures LowerMedian(s) <= l <==> CountAtMost(s, l) >= (|s| + 1) / 2
  {
    RankWithin(s, (|s| - 1) / 2, l);
  }

  lemma MedianReaches(s: seq<int>, m: int)
    requires s != []
    ensures LowerMedian(s) >= m <==> |s| - CountAtMost(s, m - 1) >= |s| / 2 + 1
  {
    RankWithin(s, (|s| - 1) / 2, m - 1);
  }

  // ---------------------------------------------------------------------------
  // Percentiles
  // ---------------------------------------------------------------------------

  function SatMul(a: nat, b: nat): nat {
    if a * b > U64_MAX then U64_MAX else a * b
  }

  function Min(a: int, b: int): int {
    if a <= b then a else b
  }

  /** The index `percentile_i32` of the gate picks. */
  function GateIndex(n: nat, percentile: nat): nat
    requires 0 < n
  {
    Min(SatSub(SatAdd(SatMul(n, percentile), 99) / 100, 1), n - 1)
  }

  /** The index `percentile` of the summary picks. */
  function SummaryIndex(n: nat, percentile: nat): nat
    requires 0 < n
  {
    var scaled := SatMul(n, percentile);
    var ceiling := scaled / 100 + (if scaled % 100 == 0 then 0 else 1);
    Min(SatSub(ceiling, 1), n - 1)
  }

  /**
    Both implementations pick the same rank, for every percentile up to 100, exactly while
    the scaled length stays clear of the last fifteen values before saturation.
   */
  lemma PercentilesAgreeIff(n: nat, percentile: nat)
    requires 0 < n && percentile <= 100
    ensures GateIndex(n, percentile) == SummaryIndex(n, percentile) <==> n * percentile <= U64_MAX - 15
  {
    var x := n * percentile;
    if x > U64_MAX - 15 {
      ScaledAtMostHundredfold(n, percentile);
      assert n - 1 >= 184467440737095516;
    }
  }

  lemma ScaledAtMostHundredfold(n: nat, percentile: nat)
    requires percentile <= 100
    ensures n * percentile <= 100 * n
  {
  }

  function Percentile95(s: seq<int>): int
    requires s != []
  {
    Sort(s)[GateIndex(|s|, 95)]
  }

  lemma Percentile95Within(s: seq<int>, l: int)
    requires 0 < |s| <= U32_MAX
    ensures Percentile95(s) <= l <==> CountAtMost(s, l) >= (95 * |s| + 99) / 100
  {
    RankWithin(s, GateIndex(|s|, 95), l);
  }

  // ---------------------------------------------------------------------------
  // Counting over a set
  // ---------------------------------------------------------------------------

  function Values<K>(order: seq<K>, f: K -> int): (v: seq<int>)
    ensures |v| == |order|
    ensures forall i :: 0 <= i < |v| ==> v[i] == f(order[i])
  {
    if order == [] then [] else [f(order[0])] + Values(order[1..], f)
  }

  ghost predicate Enumerates<K(!new)>(order: seq<K>, keys: set<K>) {
    && (forall i, j :: 0 <= i < j < |order| ==> order[i] != order[j])
    && (forall k :: k in order <==> k in keys)
  }

  lemma CardinalityStep<K(!new)>(keys: set<K>, first: K, f: K -> int, l: int)
    requires first in keys
    ensures |set k | k in keys && f(k) <= l| ==
            |set k | k in keys - {first} && f(k) <= l| + (if f(first) <= l then 1 else 0)
  {
    var inner := set k | k in keys - {first} && f(k) <= l;
    var outer := set k | k in keys && f(k) <= l;
    assert outer == if f(first) <= l then inner + {first} else inner;
  }

  lemma RestEnumerates<K(!new)>(order: seq<K>, keys: set<K>)
    requires Enumerates(order, keys) && order != []
    ensures order[0] in keys && Enumerates(order[1..], keys - {order[0]})
  {
    assert order == [order[0]] + order[1..];
  }

  /** Counting along any enumeration of a set is counting elements of the set. */
  lemma {:induction false} CountIsCardinality<K(!new)>(order: seq<K>, keys: set<K>, f: K -> int, l: int)
    requires Enumerates(order, keys)
    ensures CountAtMost(Values(order, f), l) == |set k | k in keys && f(k) <= l|
    decreases |order|
  {
    hide Enumerates;
    if order == [] {
      EmptyEnumeration(order, keys);
    } else {
      RestEnumerates(order, keys);
      CountIsCardinality(order[1..], keys - {order[0]}, f, l);
      CardinalityStep(keys, order[0], f, l);
      assert Values(order, f)[1..] == Values(order[1..], f);
    }
  }

  lemma EmptyEnumeration<K(!new)>(order: seq<K>, keys: set<K>)
    requires Enumerates(order, keys) && order == []
    ensures keys == {}
  {
  }

  lemma {:induction false} EnumerationLength<K(!new)>(order: seq<K>, keys: set<K>)
    requires Enumerates(order, keys)
    ensures |order| == |keys|
    decreases |order|
  {
    hide Enumerates;
    if order == [] {
      EmptyEnumeration(order, keys);
    } else {
      RestEnumerates(order, keys);
      EnumerationLength(order[1..], keys - {order[0]});
    }
  }

  lemma CountWithin<K(!new)>(order: seq<K>, keys: set<K>, f: K -> int, l: int, within: set<K>)
    requires Enumerates(order, keys)
    requires forall k :: k in within <==> k in keys && f(k) <= l
    ensures CountAtMost(Values(order, f), l) == |within|
  {
    hide Enumerates;
    CountIsCardinality(order, keys, f, l);
    assert within == set k | k in keys && f(k) <= l;
  }

  lemma CountAbove<K(!new)>(order: seq<K>, keys: set<K>, f: K -> int, l: int, above: set<K>)
    requires Enumerates(order, keys)
    requires forall k :: k in above <==> k in keys && f(k) > l
    ensures |order| - CountAtMost(Values(order, f), l) == |above|
  {
    hide Enumerates;
    var within := set k | k in keys && f(k) <= l;
    CountWithin(order, keys, f, l, within);
    EnumerationLength(order, keys);
    assert keys == within + above;
  }

  /** Two enumerations of one set list the same values, as far as ranks can tell. */
  lemma OrderFree<K(!new)>(first: seq<K>, second: seq<K>, keys: set<K>, f: K -> int)
    requires Enumerates(first, keys) && Enumerates(second, keys)
    ensures |first| == |second|
    ensures forall l :: CountAtMost(Values(first, f), l) == CountAtMost(Values(second, f), l)
  {
    hide Enumerates;
    EnumerationLength(first, keys);
    EnumerationLength(second, keys);
    forall l ensures CountAtMost(Values(first, f), l) == CountAtMost(Values(second, f), l) {
      CountIsCardinality(first, keys, f, l);
      CountIsCardinality(second, keys, f, l);
    }
  }
}
