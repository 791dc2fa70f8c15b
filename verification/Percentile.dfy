/** The nearest-rank 95th percentile (internal/store/records.go, dashboardP95). */
module Percentile {
  import opened Wrappers

  function CountAtMost(values: seq<int>, v: int): nat {
    if values == [] then 0
    else CountAtMost(values[..|values| - 1], v) + if values[|values| - 1] <= v then 1 else 0
  }

  function CountBelow(values: seq<int>, v: int): nat { CountAtMost(values, v - 1) }

  /** At least 95% of the samples are at or below v, fewer than 95% are strictly below. */
  predicate NearestRank(values: seq<int>, v: int) {
    && 100 * CountAtMost(values, v) >= 95 * |values|
    && 100 * CountBelow(values, v) < 95 * |values|
  }

  predicate Sorted(values: seq<int>) { forall i, j :: 0 <= i < j < |values| ==> values[i] <= values[j] }

  lemma {:induction false} CountBounds(values: seq<int>, v: int, w: int)
    requires v <= w
    ensures CountAtMost(values, v) <= CountAtMost(values, w) <= |values|
  {
    if values != [] { CountBounds(values[..|values| - 1], v, w); }
  }

  /** The samples have one nearest-rank value. */
  lemma NearestRankIsUnique(values: seq<int>, v: int, w: int)
    requires NearestRank(values, v) && NearestRank(values, w)
    ensures v == w
  {
    if v < w { CountBounds(values, v, w - 1); } else if w < v { CountBounds(values, w, v - 1); }
  }

  lemma {:induction false} CountConcat(a: seq<int>, b: seq<int>, v: int)
    ensures CountAtMost(a + b, v) == CountAtMost(a, v) + CountAtMost(b, v)
  {
    if b == [] {
      assert a + b == a;
    } else {
      assert (a + b)[..|a + b| - 1] == a + b[..|b| - 1];
      CountConcat(a, b[..|b| - 1], v);
    }
  }

  lemma RemoveOne(front: seq<int>, last: int, left: seq<int>, right: seq<int>)
    requires multiset(front + [last]) == multiset(left + ([last] + right))
    ensures multiset(front) == multiset(left + right)
  {
    var m := multiset(front + [last]);
    assert m == multiset(front) + multiset{last};
    assert m == multiset(left) + multiset{last} + multiset(right);
    assert multiset(front) == m - multiset{last};
    assert multiset(left + right) == m - multiset{last};
  }

  /** Counting does not depend on the order. */
  lemma {:induction false} CountPermuted(a: seq<int>, b: seq<int>, v: int)
    requires multiset(a) == multiset(b)
    ensures CountAtMost(a, v) == CountAtMost(b, v) && |a| == |b|
    decreases |a|
  {
    assert |multiset(a)| == |a| && |multiset(b)| == |b|;
    if a != [] {
      var last := a[|a| - 1];
      assert a == a[..|a| - 1] + [last];
      assert last in multiset(b);
      var k :| 0 <= k < |b| && b[k] == last;
      var rest := b[..k] + b[k + 1..];
      assert b == b[..k] + ([last] + b[k + 1..]);
      RemoveOne(a[..|a| - 1], last, b[..k], b[k + 1..]);
      CountPermuted(a[..|a| - 1], rest, v);
      CountConcat(b[..k], [last] + b[k + 1..], v);
      CountConcat([last], b[k + 1..], v);
      CountConcat(b[..k], b[k + 1..], v);
      assert [last][..0] == [];
    }
  }

  lemma CountAround(low: seq<int>, v: int, high: seq<int>)
    requires (forall i :: 0 <= i < |low| ==> low[i] <= v) && forall i :: 0 <= i < |high| ==> v <= high[i]
    ensures CountBelow(low + [v] + high, v) <= |low| < CountAtMost(low + [v] + high, v)
  {
    hide CountAtMost;
    CountConcat(low + [v], high, v);
    CountAll(low + [v], v);
    assert low + [v] + high == low + ([v] + high);
    CountConcat(low, [v] + high, v - 1);
    CountNone([v] + high, v - 1);
    CountBounds(low, v - 1, v - 1);
  }

  /** In sorted samples the count at or below the k-th value is at least k+1, and below it at most k. */
  lemma CountSorted(values: seq<int>, k: nat)
    requires Sorted(values) && k < |values|
    ensures CountBelow(values, values[k]) <= k < CountAtMost(values, values[k])
  {
    hide CountAtMost, CountBelow;
    CountAround(values[..k], values[k], values[k + 1..]);
    assert values == values[..k] + [values[k]] + values[k + 1..];
  }

  lemma {:induction false} CountAll(values: seq<int>, v: int)
    requires forall i :: 0 <= i < |values| ==> values[i] <= v
    ensures CountAtMost(values, v) == |values|
  {
    if values != [] { CountAll(values[..|values| - 1], v); }
  }

  lemma {:induction false} CountNone(values: seq<int>, v: int)
    requires forall i :: 0 <= i < |values| ==> values[i] > v
    ensures CountAtMost(values, v) == 0
  {
    if values != [] { CountNone(values[..|values| - 1], v); }
  }

  /** Where the next value goes in sorted values. */
  method Place(sorted: seq<int>, v: int) returns (k: nat)
    ensures k <= |sorted|
    ensures forall i :: 0 <= i < k ==> sorted[i] < v
    ensures k < |sorted| ==> v <= sorted[k]
  {
    k := 0;
    while k < |sorted| && sorted[k] < v
      invariant k <= |sorted| && forall i :: 0 <= i < k ==> sorted[i] < v
    {
      k := k + 1;
    }
  }

  lemma PutInSorted(sorted: seq<int>, v: int, k: nat)
    requires Sorted(sorted) && k <= |sorted|
    requires (forall i :: 0 <= i < k ==> sorted[i] < v) && (k < |sorted| ==> v <= sorted[k])
    ensures Sorted(sorted[..k] + [v] + sorted[k..])
  {
    var r := sorted[..k] + [v] + sorted[k..];
    assert |r| == |sorted| + 1;
    forall i, j | 0 <= i < j < |r| ensures r[i] <= r[j] {
      assert r[i] == if i < k then sorted[i] else if i == k then v else sorted[i - 1];
      assert r[j] == if j < k then sorted[j] else if j == k then v else sorted[j - 1];
    }
  }

  lemma PutInSame(sorted: seq<int>, v: int, k: nat)
    requires k <= |sorted|
    ensures multiset(sorted[..k] + [v] + sorted[k..]) == multiset(sorted) + multiset{v}
  {
    assert sorted == sorted[..k] + sorted[k..];
  }

  method SortInts(values: seq<int>) returns (sorted: seq<int>)
    ensures Sorted(sorted) && multiset(sorted) == multiset(values) && |sorted| == |values|
  {
    sorted := [];
    for n := 0 to |values|
      invariant |sorted| == n && Sorted(sorted) && multiset(sorted) == multiset(values[..n])
    {
      hide Sorted;
      var k := Place(sorted, values[n]);
      PutInSorted(sorted, values[n], k);
      PutInSame(sorted, values[n], k);
      assert values[..n + 1] == values[..n] + [values[n]];
      sorted := sorted[..k] + [values[n]] + sorted[k..];
    }
    assert values[..|values|] == values;
  }

  /** dashboardP95 with its index clamps, which never change anything: the rank is within 1..n. */
  method P95(values: seq<int>) returns (p: Option<int>)
    ensures p.None? <==> values == []
    ensures p.Some? ==> NearestRank(values, p.value) && p.value in values
  {
    if |values| == 0 { return None; }
    var sorted := SortInts(values);
    var idx := (95 * |sorted| + 99) / 100;
    assert 1 <= idx <= |sorted|;
    if idx < 1 { idx := 1; }
    if idx > |sorted| { idx := |sorted|; }
    var value := sorted[idx - 1];
    CountSorted(sorted, idx - 1);
    CountPermuted(sorted, values, value);
    CountPermuted(sorted, values, value - 1);
    assert value in multiset(sorted);
    return Some(value);
  }

  // ---------------------------------------------------------------- buckets

  function SumAtMost(buckets: seq<seq<int>>, v: int): nat {
    if buckets == [] then 0 else SumAtMost(buckets[..|buckets| - 1], v) + CountAtMost(buckets[|buckets| - 1], v)
  }

  function Samples(buckets: seq<seq<int>>): nat {
    if buckets == [] then 0 else Samples(buckets[..|buckets| - 1]) + |buckets[|buckets| - 1]|
  }

  /** The samples of all buckets together. */
  ghost predicate Merges(buckets: seq<seq<int>>, all: seq<int>) {
    |all| == Samples(buckets) && forall v :: CountAtMost(all, v) == SumAtMost(buckets, v)
  }

  lemma {:induction false} EnoughAtMost(buckets: seq<seq<int>>, v: int)
    requires forall i :: 0 <= i < |buckets| ==> 100 * CountAtMost(buckets[i], v) >= 95 * |buckets[i]|
    ensures 100 * SumAtMost(buckets, v) >= 95 * Samples(buckets)
  {
    if buckets != [] { EnoughAtMost(buckets[..|buckets| - 1], v); }
  }

  lemma {:induction false} TooFewAtMost(buckets: seq<seq<int>>, v: int)
    requires forall i :: 0 <= i < |buckets| ==>
               buckets[i] == [] || 100 * CountAtMost(buckets[i], v) < 95 * |buckets[i]|
    ensures 100 * SumAtMost(buckets, v) <= 95 * Samples(buckets)
    ensures Samples(buckets) > 0 ==> 100 * SumAtMost(buckets, v) < 95 * Samples(buckets)
  {
    if buckets != [] { TooFewAtMost(buckets[..|buckets| - 1], v); }
  }

  /** The overall p95 is at least any lower bound and at most any upper bound of the p95 of the
      non-empty buckets: it lies between the smallest and the largest. */
  lemma OverallIsBetween(buckets: seq<seq<int>>, p95: seq<int>, all: seq<int>, overall: int, lo: int, hi: int)
    requires Merges(buckets, all) && |p95| == |buckets| && all != [] && NearestRank(all, overall)
    requires forall i :: 0 <= i < |buckets| && buckets[i] != [] ==> NearestRank(buckets[i], p95[i]) && lo <= p95[i] <= hi
    ensures lo <= overall <= hi
  {
    forall i | 0 <= i < |buckets|
      ensures 100 * CountAtMost(buckets[i], hi) >= 95 * |buckets[i]|
      ensures buckets[i] == [] || 100 * CountAtMost(buckets[i], lo - 1) < 95 * |buckets[i]|
    {
      if buckets[i] != [] {
        CountBounds(buckets[i], p95[i], hi);
        CountBounds(buckets[i], lo - 1, p95[i] - 1);
      }
    }
    EnoughAtMost(buckets, hi);
    TooFewAtMost(buckets, lo - 1);
    if overall > hi { CountBounds(all, hi, overall - 1); }
    if overall < lo { CountBounds(all, overall, lo - 1); }
  }
}
