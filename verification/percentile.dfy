/** Metrics::percentile: a sort followed by the nearest-rank rule, with the rank taken exactly. */
module Percentiles {
  import opened Words

  // ----- the sorted copy

  function Insert(x: u64, s: seq<u64>): seq<u64> {
    if s == [] || x <= s[0] then [x] + s else [s[0]] + Insert(x, s[1..])
  }

  function Sort(s: seq<u64>): seq<u64> {
    if s == [] then [] else Insert(s[0], Sort(s[1..]))
  }

  predicate Ascending(s: seq<u64>) {
    forall i, j :: 0 <= i < j < |s| ==> s[i] <= s[j]
  }

  lemma {:induction false} InsertKeeps(x: u64, s: seq<u64>)
    ensures multiset(Insert(x, s)) == multiset(s) + multiset{x}
  {
    if s != [] && x > s[0] {
      InsertKeeps(x, s[1..]);
      assert s == [s[0]] + s[1..];
    }
  }

  lemma {:induction false} InsertAscends(x: u64, s: seq<u64>)
    requires Ascending(s)
    ensures Ascending(Insert(x, s)) && Insert(x, s) != []
    ensures Insert(x, s)[0] == if s == [] || x <= s[0] then x else s[0]
  {
    if s != [] && x > s[0] {
      InsertAscends(x, s[1..]);
    }
  }

  lemma {:induction false} SortSorts(s: seq<u64>)
    ensures Ascending(Sort(s)) && multiset(Sort(s)) == multiset(s) && |Sort(s)| == |s|
  {
    if s != [] {
      SortSorts(s[1..]);
      InsertAscends(s[0], Sort(s[1..]));
      InsertKeeps(s[0], Sort(s[1..]));
      assert s == [s[0]] + s[1..];
      assert |multiset(Sort(s))| == |multiset(s)|;
    }
  }

  // ----- counting, the vocabulary of order statistics

  function CountAtMost(s: seq<u64>, v: int): nat {
    if s == [] then 0 else (if s[0] <= v then 1 else 0) + CountAtMost(s[1..], v)
  }

  function CountBelow(s: seq<u64>, v: int): nat {
    CountAtMost(s, v - 1)
  }

  lemma {:induction false} CountInsert(x: u64, s: seq<u64>, v: int)
    ensures CountAtMost(Insert(x, s), v) == CountAtMost(s, v) + if x <= v then 1 else 0
  {
    if s != [] && x > s[0] {
      CountInsert(x, s[1..], v);
      assert Insert(x, s)[1..] == Insert(x, s[1..]);
    } else {
      assert ([x] + s)[1..] == s;
    }
  }

  lemma {:induction false} CountSort(s: seq<u64>, v: int)
    ensures CountAtMost(Sort(s), v) == CountAtMost(s, v)
  {
    if s != [] {
      CountSort(s[1..], v);
      CountInsert(s[0], Sort(s[1..]), v);
    }
  }

  /** In sorted order, the k-th value (from 0) is at most v exactly when more than k values are. */
  lemma {:induction false} KthAtMost(s: seq<u64>, k: nat, v: int)
    requires Ascending(s) && k < |s|
    ensures s[k] <= v <==> CountAtMost(s, v) > k
  {
    var rest := s[1..];
    assert forall i :: 0 <= i < |rest| ==> rest[i] == s[i + 1];
    if k > 0 {
      KthAtMost(rest, k - 1, v);
    } else if |s| > 1 {
      KthAtMost(rest, 0, v);
    }
  }

  // ----- the nearest rank

  function Ceil(x: real): int {
    -((-x).Floor)
  }

  function Rank(p: real, n: nat): int {
    Ceil(p / 100.0 * n as real)
  }

  /** Rank 0 minus 1 is the largest size_t. */
  function RankIndex(rank: nat): nat {
    if rank == 0 then UINT64_MAX else rank - 1
  }

  lemma RankRange(p: real, n: nat)
    requires 0.0 <= p <= 100.0
    ensures 0 <= Rank(p, n) <= n
    ensures 0.0 < p && 0 < n ==> 1 <= Rank(p, n)
  {
    var q := p / 100.0;
    var x := q * n as real;
    assert 0.0 <= q <= 1.0;
    assert 0.0 <= x <= n as real by {
      Scale(q, 1.0, n as real);
      Scale(0.0, q, n as real);
    }
    if 0.0 < p && 0 < n {
      assert q > 0.0;
      assert x > 0.0;
    }
  }

  lemma Scale(a: real, b: real, c: real)
    requires a <= b && 0.0 <= c
    ensures a * c <= b * c
  {
  }

  function Percentile(values: seq<u64>, p: real): u64
    requires 0.0 <= p <= 100.0
  {
    if values == [] then 0
    else
      SortSorts(values);
      RankRange(p, |values|);
      var sorted := Sort(values);
      var idx := RankIndex(Rank(p, |sorted|));
      sorted[if idx >= |sorted| then |sorted| - 1 else idx]
  }

  /** v is the value of rank r: one of the values, with at least r of them at or below it and
      fewer than r strictly below it. */
  ghost predicate HasRank(values: seq<u64>, v: u64, r: nat) {
    && v in values
    && CountAtMost(values, v) >= r
    && CountBelow(values, v) < r
  }

  lemma SortedValueHasRank(values: seq<u64>, r: nat)
    requires 1 <= r <= |values|
    ensures |Sort(values)| == |values| && HasRank(values, Sort(values)[r - 1], r)
  {
    hide Sort;
    SortSorts(values);
    var v: int := Sort(values)[r - 1];
    assert v in values by {
      assert v in multiset(Sort(values));
    }
    KthAtMost(Sort(values), r - 1, v);
    KthAtMost(Sort(values), r - 1, v - 1);
    CountSort(values, v);
    CountSort(values, v - 1);
  }

  lemma {:induction false} CountGrows(s: seq<u64>, a: int, b: int)
    requires a <= b
    ensures CountAtMost(s, a) <= CountAtMost(s, b)
  {
    if s != [] {
      CountGrows(s[1..], a, b);
    }
  }

  /** The percentile is the nearest-rank value, and the only one. */
  lemma {:induction false} PercentileIsNearestRank(values: seq<u64>, p: real, v: u64)
    requires values != [] && 0.0 < p <= 100.0
    ensures 1 <= Rank(p, |values|) <= |values|
    ensures HasRank(values, v, Rank(p, |values|)) <==> v == Percentile(values, p)
  {
    RankRange(p, |values|);
    var r := Rank(p, |values|);
    SortedValueHasRank(values, r);
    var w := Percentile(values, p);
    if HasRank(values, v, r) {
      if v < w {
        CountGrows(values, v, w - 1);
      } else if w < v {
        CountGrows(values, w, v - 1);
      }
    }
  }

  lemma {:induction false} RankGrows(p: real, q: real, n: nat)
    requires 0.0 <= p <= q <= 100.0
    ensures Rank(p, n) <= Rank(q, n)
  {
    Scale(p / 100.0, q / 100.0, n as real);
  }

  /** P50 <= P95 <= P99, and so for any two percentages above 0. */
  lemma {:induction false} PercentileGrows(values: seq<u64>, p: real, q: real)
    requires 0.0 < p <= q <= 100.0
    ensures Percentile(values, p) <= Percentile(values, q)
  {
    if values != [] {
      SortSorts(values);
      RankRange(p, |values|);
      RankRange(q, |values|);
      RankGrows(p, q, |values|);
    }
  }

  /** At p = 0 the index wraps and the clamp returns the maximum instead of the minimum. */
  lemma {:induction false} PercentileZeroIsMaximum(values: seq<u64>)
    requires 0 < |values| < TWO_64
    ensures Percentile(values, 0.0) in values
    ensures forall k :: 0 <= k < |values| ==> values[k] <= Percentile(values, 0.0)
  {
    SortSorts(values);
    var s := Sort(values);
    assert Rank(0.0, |s|) == 0 by {
      assert 0.0 / 100.0 * |s| as real == 0.0;
    }
    assert Percentile(values, 0.0) == s[|s| - 1];
    assert s[|s| - 1] in multiset(s);
    forall k | 0 <= k < |values|
      ensures values[k] <= s[|s| - 1]
    {
      assert values[k] in multiset(s);
    }
  }

  lemma ConstantGrows(values: seq<u64>, q: real)
    requires 0 < |values| < TWO_64 && 0.0 < q <= 100.0
    requires forall i, j :: 0 <= i < j < |values| ==> values[i] == values[j]
    ensures Percentile(values, 0.0) <= Percentile(values, q)
  {
    hide Percentile, CountAtMost, Rank;
    PercentileZeroIsMaximum(values);
    PercentileIsNearestRank(values, q, Percentile(values, q));
    assert forall i :: 0 <= i < |values| ==> values[i] == values[0];
  }

  /** Where the list is not constant, the percentage of rank 1 shows it. */
  lemma SmallestIsBelowMaximum(values: seq<u64>, i: nat, j: nat)
    requires i < j < |values| < TWO_64 && values[i] != values[j]
    ensures var q := 100.0 / |values| as real;
      0.0 < q <= 100.0 && Percentile(values, q) < Percentile(values, 0.0)
  {
    hide Percentile, CountAtMost, Rank;
    PercentileZeroIsMaximum(values);
    SmallestRank(values);
    var m := Percentile(values, 0.0);
    var q := 100.0 / |values| as real;
    PercentileIsNearestRank(values, q, m);
    PercentileIsNearestRank(values, q, Percentile(values, q));
    if Percentile(values, q) == m {
      CountContains(values, if values[i] < m then values[i] else values[j], m - 1);
      assert false;
    }
  }

  /** So the growth law extends to p = 0 exactly for lists of one repeated value (or none). */
  lemma {:induction false} GrowthFromZeroIffConstant(values: seq<u64>)
    requires |values| < TWO_64
    ensures (forall q: real :: 0.0 < q <= 100.0 ==> Percentile(values, 0.0) <= Percentile(values, q))
        <==> (forall i, j :: 0 <= i < j < |values| ==> values[i] == values[j])
  {
    if values != [] {
      hide Percentile;
      if forall i, j :: 0 <= i < j < |values| ==> values[i] == values[j] {
        forall q: real | 0.0 < q <= 100.0
          ensures Percentile(values, 0.0) <= Percentile(values, q)
        {
          ConstantGrows(values, q);
        }
      } else {
        var i, j :| 0 <= i < j < |values| && values[i] != values[j];
        SmallestIsBelowMaximum(values, i, j);
      }
    }
  }

  lemma SmallestRank(values: seq<u64>)
    requires values != []
    ensures 0.0 < 100.0 / |values| as real <= 100.0
    ensures Rank(100.0 / |values| as real, |values|) == 1
  {
    var n := |values| as real;
    var p := 100.0 / n;
    assert p * n == 100.0;
    assert p / 100.0 * n == 1.0;
  }

  lemma {:induction false} CountContains(s: seq<u64>, x: u64, v: int)
    requires x in s && x <= v
    ensures CountAtMost(s, v) >= 1
  {
    if s[0] != x {
      CountContains(s[1..], x, v);
    }
  }

  // ----- order and domination

  lemma HeadIsLeast(a: seq<u64>, x: u64)
    requires Ascending(a) && x in multiset(a)
    ensures a[0] <= x
  {
    var k :| 0 <= k < |a| && a[k] == x;
  }

  lemma HeadsAgree(a: seq<u64>, b: seq<u64>)
    requires Ascending(a) && Ascending(b) && multiset(a) == multiset(b) && a != [] && b != []
    ensures a[0] == b[0]
  {
    assert a[0] in multiset(a) && b[0] in multiset(b);
    HeadIsLeast(a, b[0]);
    HeadIsLeast(b, a[0]);
  }

  lemma TailOf(a: seq<u64>)
    requires a != []
    ensures multiset(a[1..]) == multiset(a) - multiset{a[0]}
    ensures Ascending(a) ==> Ascending(a[1..])
  {
    assert a == [a[0]] + a[1..];
  }

  lemma {:induction false} AscendingUnique(a: seq<u64>, b: seq<u64>)
    requires Ascending(a) && Ascending(b) && multiset(a) == multiset(b)
    ensures a == b
  {
    hide Ascending;
    assert |a| == |multiset(a)| == |multiset(b)| == |b|;
    if a != [] {
      HeadsAgree(a, b);
      TailOf(a);
      TailOf(b);
      AscendingUnique(a[1..], b[1..]);
      assert a == [a[0]] + a[1..] && b == [b[0]] + b[1..];
    }
  }

  /** The order in which the values were recorded does not matter. */
  lemma {:induction false} PercentileIgnoresOrder(values: seq<u64>, others: seq<u64>, p: real)
    requires multiset(values) == multiset(others) && 0.0 <= p <= 100.0
    ensures Percentile(values, p) == Percentile(others, p)
  {
    assert |multiset(values)| == |multiset(others)|;
    SortSorts(values);
    SortSorts(others);
    AscendingUnique(Sort(values), Sort(others));
  }

  ghost predicate Dominates(big: seq<u64>, small: seq<u64>) {
    |big| == |small| && forall k :: 0 <= k < |big| ==> small[k] <= big[k]
  }

  lemma {:induction false} DominationCounts(big: seq<u64>, small: seq<u64>, v: int)
    requires Dominates(big, small)
    ensures CountAtMost(big, v) <= CountAtMost(small, v)
  {
    if big != [] {
      assert forall k :: 0 <= k < |big[1..]| ==> big[1..][k] == big[k + 1] && small[1..][k] == small[k + 1];
      DominationCounts(big[1..], small[1..], v);
    }
  }

  /** If every value is at least its counterpart, so is every percentile. */
  lemma {:induction false} PercentileDominates(big: seq<u64>, small: seq<u64>, p: real)
    requires Dominates(big, small) && 0.0 <= p <= 100.0
    ensures Percentile(small, p) <= Percentile(big, p)
  {
    if big != [] {
      SortSorts(big);
      SortSorts(small);
      RankRange(p, |big|);
      var idx := RankIndex(Rank(p, |big|));
      var k := if idx >= |big| then |big| - 1 else idx;
      var v := Sort(big)[k];
      KthAtMost(Sort(big), k, v);
      KthAtMost(Sort(small), k, v);
      CountSort(big, v);
      CountSort(small, v);
      DominationCounts(big, small, v);
    }
  }
}
