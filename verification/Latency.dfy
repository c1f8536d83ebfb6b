/**
 Trial latency percentiles: linear interpolation between the two order statistics around
 (n-1)*p, rounded half to even. Ranks and interpolation are exact reals.
 */
module Latency {
  import opened Sequences
  import opened Reals
  import opened Rounding

  // ---------------------------------------------------------------------------------------------
  // Order statistics
  // ---------------------------------------------------------------------------------------------

  ghost predicate Sorted(s: seq<int>) {
    forall i, j :: 0 <= i < j < |s| ==> s[i] <= s[j]
  }

  function Insert(x: int, s: seq<int>): seq<int> {
    if s == [] || x <= s[0] then [x] + s else [s[0]] + Insert(x, s[1..])
  }

  /** The values in ascending order. */
  function Sort(s: seq<int>): seq<int> {
    if s == [] then [] else Insert(s[0], Sort(s[1..]))
  }

  lemma {:induction false} InsertMembers(x: int, s: seq<int>)
    ensures forall y :: y in Insert(x, s) ==> y == x || y in s
    ensures |Insert(x, s)| == |s| + 1
  {
    if s != [] && x > s[0] { InsertMembers(x, s[1..]); }
  }

  lemma {:induction false} InsertMultiset(x: int, s: seq<int>)
    ensures multiset(Insert(x, s)) == multiset(s) + multiset{x}
  {
    if s != [] && x > s[0] {
      InsertMultiset(x, s[1..]);
      assert s == [s[0]] + s[1..];
    }
  }

  lemma {:induction false} InsertSorted(x: int, s: seq<int>)
    requires Sorted(s)
    ensures Sorted(Insert(x, s))
  {
    if s != [] && x > s[0] {
      InsertSorted(x, s[1..]);
      InsertMembers(x, s[1..]);
      var rest := Insert(x, s[1..]);
      forall i | 0 <= i < |rest| ensures s[0] <= rest[i] {
        assert rest[i] in rest;
      }
    }
  }

  lemma {:induction false} SortSorts(s: seq<int>)
    ensures Sorted(Sort(s)) && multiset(Sort(s)) == multiset(s) && |Sort(s)| == |s|
  {
    if s != [] {
      SortSorts(s[1..]);
      InsertSorted(s[0], Sort(s[1..]));
      InsertMultiset(s[0], Sort(s[1..]));
      InsertMembers(s[0], Sort(s[1..]));
      assert s == [s[0]] + s[1..];
    }
  }

  /** How many values are at most x. */
  function CountAtMost(s: seq<int>, x: int): nat {
    if s == [] then 0 else (if s[0] <= x then 1 else 0) + CountAtMost(s[1..], x)
  }

  lemma {:induction false} CountOfConcat(s: seq<int>, t: seq<int>, x: int)
    ensures CountAtMost(s + t, x) == CountAtMost(s, x) + CountAtMost(t, x)
  {
    if s == [] {
      assert s + t == t;
    } else {
      assert (s + t)[1..] == s[1..] + t;
      CountOfConcat(s[1..], t, x);
    }
  }

  lemma CountWithout(s: seq<int>, k: nat, x: int)
    requires k < |s|
    ensures CountAtMost(s, x) == CountAtMost(Without(s, k), x) + CountAtMost([s[k]], x)
  {
    assert s == s[..k] + ([s[k]] + s[k+1..]);
    CountOfConcat(s[..k], s[k+1..], x);
    CountOfConcat(s[..k], [s[k]] + s[k+1..], x);
    CountOfConcat([s[k]], s[k+1..], x);
  }

  /** The count depends on the values only, not on their order. */
  lemma {:induction false} CountOfPermutation(s: seq<int>, t: seq<int>, x: int)
    requires multiset(s) == multiset(t)
    ensures CountAtMost(s, x) == CountAtMost(t, x)
    decreases |s|
  {
    if s == [] {
      assert |multiset(t)| == 0;
    } else {
      assert s[0] in multiset(t);
      var k :| 0 <= k < |t| && t[k] == s[0];
      MultisetWithout(s, 0);
      MultisetWithout(t, k);
      CountOfPermutation(Without(s, 0), Without(t, k), x);
      CountWithout(s, 0, x);
      CountWithout(t, k, x);
    }
  }

  /** In a sorted sequence the value at rank k is at most x exactly when more than k values are. */
  lemma {:induction false} RankByCount(s: seq<int>, k: nat, x: int)
    requires Sorted(s) && k < |s|
    ensures s[k] <= x <==> CountAtMost(s, x) > k
  {
    if s[0] > x {
      CountNone(s, x);
    } else if k > 0 {
      RankByCount(s[1..], k - 1, x);
    }
  }

  lemma {:induction false} CountNone(s: seq<int>, x: int)
    requires forall i :: 0 <= i < |s| ==> s[i] > x
    ensures CountAtMost(s, x) == 0
  {
    if s != [] { CountNone(s[1..], x); }
  }

  /** Raising samples raises every order statistic. */
  lemma SortMonotone(s: seq<int>, t: seq<int>, k: nat)
    requires |s| == |t| && k < |s|
    requires forall i :: 0 <= i < |s| ==> s[i] <= t[i]
    ensures |Sort(s)| == |s| && |Sort(t)| == |t| && Sort(s)[k] <= Sort(t)[k]
  {
    SortSorts(s);
    SortSorts(t);
    var x := Sort(t)[k];
    RankByCount(Sort(t), k, x);
    CountOfPermutation(Sort(t), t, x);
    CountMonotone(s, t, x);
    CountOfPermutation(s, Sort(s), x);
    RankByCount(Sort(s), k, x);
  }

  lemma {:induction false} CountMonotone(s: seq<int>, t: seq<int>, x: int)
    requires |s| == |t|
    requires forall i :: 0 <= i < |s| ==> s[i] <= t[i]
    ensures CountAtMost(s, x) >= CountAtMost(t, x)
  {
    if s != [] { CountMonotone(s[1..], t[1..], x); }
  }

  /** Sorting is determined by the multiset of values. */
  lemma SortOfPermutation(s: seq<int>, t: seq<int>)
    requires multiset(s) == multiset(t)
    ensures |s| == |t| && Sort(s) == Sort(t)
  {
    SortSorts(s);
    SortSorts(t);
    assert |s| == |multiset(s)| == |t|;
    forall k | 0 <= k < |s| ensures Sort(s)[k] == Sort(t)[k] {
      RankTransfer(Sort(s), Sort(t), k);
      RankTransfer(Sort(t), Sort(s), k);
    }
  }

  lemma RankTransfer(s: seq<int>, t: seq<int>, k: nat)
    requires Sorted(s) && Sorted(t) && multiset(s) == multiset(t) && k < |s| && k < |t|
    ensures s[k] <= t[k]
  {
    RankByCount(t, k, t[k]);
    CountOfPermutation(s, t, t[k]);
    RankByCount(s, k, t[k]);
  }

  // ---------------------------------------------------------------------------------------------
  // Interpolation
  // ---------------------------------------------------------------------------------------------

  /** The point a fraction t of the way from a to b. */
  function Blend(a: real, b: real, t: real): real {
    a + (b - a) * t
  }

  /** The straight line between neighbouring ranks of an ascending sequence. */
  function Interpolate(ordered: seq<int>, position: real): real
    requires 0.0 <= position <= (|ordered| - 1) as real
  {
    var lower, upper := position.Floor, Ceil(position);
    Blend(ordered[lower] as real, ordered[upper] as real, position - lower as real)
  }

  /** The rank, possibly between two samples, at which the p-quantile of n samples is read. */
  function Position(n: nat, p: real): (x: real)
    requires 1 <= n && 0.0 <= p <= 1.0
    ensures 0.0 <= x <= (n - 1) as real
  {
    (n - 1) as real * p
  }

  function Quantile(values: seq<int>, p: real): int
    requires values != [] && 0.0 <= p <= 1.0
  {
    SortSorts(values);
    Round(Interpolate(Sort(values), Position(|values|, p)))
  }

  /** The values in ascending order, and the rank x of the percentile among them, counted from 0. */
  ghost predicate Ranked(values: seq<int>, p: real, ordered: seq<int>, x: real) {
    Sorted(ordered) && multiset(ordered) == multiset(values) && x == (|ordered| - 1) as real * p
  }

  /** The rank lies between the neighbours k and k + 1. */
  ghost predicate Around(values: seq<int>, p: real, ordered: seq<int>, x: real, k: nat) {
    Ranked(values, p, ordered, x) && k + 1 < |ordered| && k as real <= x <= (k + 1) as real
  }

  /** The rank is k. */
  ghost predicate OnRank(values: seq<int>, p: real, ordered: seq<int>, x: real, k: nat) {
    Ranked(values, p, ordered, x) && k < |ordered| && x == k as real
  }

  /**
   The percentile of the values: between neighbours in ascending order it is the nearest integer to the point on
   the straight line between them; on a whole rank it is the value there.
   */
  ghost predicate IsPercentile(values: seq<int>, p: real, r: int) {
    && (forall ordered, x, k: nat :: Around(values, p, ordered, x, k) ==>
          Nearest(ordered[k] as real + (ordered[k + 1] - ordered[k]) as real * (x - k as real), r))
    && (forall ordered, x, k: nat :: OnRank(values, p, ordered, x, k) ==> r == ordered[k])
  }

  lemma SortOfSorted(values: seq<int>, ordered: seq<int>)
    requires Sorted(ordered) && multiset(ordered) == multiset(values)
    ensures ordered == Sort(values) && |ordered| == |values|
  {
    SortSorts(values);
    assert |ordered| == |multiset(ordered)| == |multiset(Sort(values))| == |Sort(values)|;
    forall k | 0 <= k < |ordered| ensures ordered[k] == Sort(values)[k] {
      RankTransfer(ordered, Sort(values), k);
      RankTransfer(Sort(values), ordered, k);
    }
  }

  lemma InterpolatesBetween(ordered: seq<int>, x: real, k: nat)
    requires k + 1 < |ordered| && k as real <= x <= (k + 1) as real
    ensures Interpolate(ordered, x)
         == ordered[k] as real + (ordered[k + 1] - ordered[k]) as real * (x - k as real)
  {
    var a, b := ordered[k] as real, ordered[k + 1] as real;
    assert (ordered[k + 1] - ordered[k]) as real == b - a;
    if x == (k + 1) as real {
      assert x.Floor == k + 1 && Ceil(x) == k + 1 && x - k as real == 1.0;
      assert a + (b - a) * 1.0 == b + (b - b) * 0.0;
    } else if x == k as real {
      assert x.Floor == k && Ceil(x) == k && x - k as real == 0.0;
      assert a + (b - a) * 0.0 == a + (a - a) * 0.0;
    } else {
      assert x.Floor == k && Ceil(x) == k + 1;
    }
  }

  lemma InterpolatesOnRank(ordered: seq<int>, k: nat)
    requires k < |ordered|
    ensures Interpolate(ordered, k as real) == ordered[k] as real
  {
  }

  lemma QuantileAtRank(values: seq<int>, p: real, ordered: seq<int>, x: real)
    requires values != [] && 0.0 <= p <= 1.0 && ordered == Sort(values) && x == Position(|values|, p)
    ensures |ordered| == |values| && Quantile(values, p) == Round(Interpolate(ordered, x))
  {
    SortSorts(values);
  }

  lemma RankedPosition(values: seq<int>, p: real, n: nat, x: real)
    requires values != [] && 0.0 <= p <= 1.0 && x == (n - 1) as real * p && n == |values|
    ensures x == Position(|values|, p)
  {
  }

  lemma SameLength(s: seq<int>, t: seq<int>)
    requires multiset(s) == multiset(t)
    ensures |s| == |t|
  {
    assert |s| == |multiset(s)| == |multiset(t)| == |t|;
  }

  lemma QuantileFrom(values: seq<int>, p: real, ordered: seq<int>, x: real)
    requires values != [] && 0.0 <= p <= 1.0 && Ranked(values, p, ordered, x)
    ensures x == Position(|values|, p)
  {
    SameLength(values, ordered);
    RankedPosition(values, p, |ordered|, x);
  }

  lemma QuantileIsPercentile(values: seq<int>, p: real)
    requires values != [] && 0.0 <= p <= 1.0
    ensures IsPercentile(values, p, Quantile(values, p))
  {
    var r := Quantile(values, p);
    forall ordered, x, k: nat | Around(values, p, ordered, x, k)
      ensures Nearest(ordered[k] as real + (ordered[k + 1] - ordered[k]) as real * (x - k as real), r)
    {
      QuantileFrom(values, p, ordered, x);
      SortOfSorted(values, ordered);
      QuantileAtRank(values, p, ordered, x);
      InterpolatesBetween(ordered, x, k);
    }
    forall ordered, x, k: nat | OnRank(values, p, ordered, x, k) ensures r == ordered[k] {
      QuantileFrom(values, p, ordered, x);
      SortOfSorted(values, ordered);
      QuantileAtRank(values, p, ordered, x);
      InterpolatesOnRank(ordered, k);
      RoundInt(ordered[k]);
    }
  }

  /** The p-quantile of a non-empty list of durations; on a whole rank no interpolation is done. */
  method Percentile(values: seq<int>, p: real) returns (r: int)
    requires values != [] && 0.0 <= p <= 1.0
    ensures r == Quantile(values, p) && IsPercentile(values, p, r)
  {
    QuantileIsPercentile(values, p);
    SortSorts(values);
    var ordered := Sort(values);
    var position := Position(|ordered|, p);
    var lower := position.Floor;
    var upper := Ceil(position);
    if lower == upper {
      BlendEnds(ordered[lower] as real, ordered[upper] as real, position - lower as real);
      RoundInt(ordered[lower]);
      return ordered[lower];
    }
    return Round(Blend(ordered[lower] as real, ordered[upper] as real, position - lower as real));
  }

  lemma BlendEnds(a: real, b: real, t: real)
    requires a <= b && 0.0 <= t <= 1.0
    ensures a <= Blend(a, b, t) <= b
  {
    ProductNonNegative(b - a, t);
    ProductNonNegative(b - a, 1.0 - t);
  }

  lemma BlendMonotone(a: real, b: real, t: real, u: real)
    requires a <= b && t <= u
    ensures Blend(a, b, t) <= Blend(a, b, u)
  {
    ProductNonNegative(b - a, u - t);
  }

  lemma BlendRises(a: real, b: real, a': real, b': real, t: real)
    requires a <= a' && b <= b' && 0.0 <= t <= 1.0
    ensures Blend(a, b, t) <= Blend(a', b', t)
  {
    ProductNonNegative(a' - a, 1.0 - t);
    ProductNonNegative(b' - b, t);
  }

  /** The line stays between its two end points. */
  lemma InterpolateBetween(s: seq<int>, x: real)
    requires Sorted(s) && 0.0 <= x <= (|s| - 1) as real
    ensures s[x.Floor] as real <= Interpolate(s, x) <= s[Ceil(x)] as real
  {
    BlendEnds(s[x.Floor] as real, s[Ceil(x)] as real, x - x.Floor as real);
  }

  lemma InterpolateMonotone(s: seq<int>, x: real, y: real)
    requires Sorted(s) && 0.0 <= x <= y <= (|s| - 1) as real
    ensures Interpolate(s, x) <= Interpolate(s, y)
  {
    InterpolateBetween(s, x);
    InterpolateBetween(s, y);
    if x.Floor < y.Floor {
      assert Ceil(x) <= y.Floor;
    } else if x != x.Floor as real {
      BlendMonotone(s[x.Floor] as real, s[Ceil(x)] as real, x - x.Floor as real, y - x.Floor as real);
    }
  }

  // ---------------------------------------------------------------------------------------------
  // Laws of the percentile
  // ---------------------------------------------------------------------------------------------

  /** The order in which trials finished does not matter. */
  lemma QuantileOfPermutation(s: seq<int>, t: seq<int>, p: real)
    requires s != [] && t != [] && multiset(s) == multiset(t) && 0.0 <= p <= 1.0
    ensures Quantile(s, p) == Quantile(t, p)
  {
    SortOfPermutation(s, t);
  }

  /** A percentile lies between the fastest and the slowest sample. */
  lemma QuantileInRange(s: seq<int>, p: real, low: int, high: int)
    requires s != [] && 0.0 <= p <= 1.0
    requires forall i :: 0 <= i < |s| ==> low <= s[i] <= high
    ensures low <= Quantile(s, p) <= high
  {
    SortSorts(s);
    var r, x := Sort(s), Position(|s|, p);
    forall i | 0 <= i < |r| ensures low <= r[i] <= high {
      assert r[i] in multiset(r);
      assert r[i] in multiset(s);
    }
    InterpolateBetween(r, x);
    RoundMonotone(low as real, Interpolate(r, x));
    RoundMonotone(Interpolate(r, x), high as real);
    RoundInt(low);
    RoundInt(high);
  }

  lemma PositionMonotone(n: nat, p: real, q: real)
    requires 1 <= n && 0.0 <= p <= q <= 1.0
    ensures Position(n, p) <= Position(n, q)
  {
    ProductNonNegative((n - 1) as real, q - p);
  }

  /** A higher percentile is never smaller; in particular p50 <= p95. */
  lemma QuantileMonotoneInP(s: seq<int>, p: real, q: real)
    requires s != [] && 0.0 <= p <= q <= 1.0
    ensures Quantile(s, p) <= Quantile(s, q)
  {
    SortSorts(s);
    PositionMonotone(|s|, p, q);
    var x, y := Position(|s|, p), Position(|s|, q);
    InterpolateMonotone(Sort(s), x, y);
    RoundMonotone(Interpolate(Sort(s), x), Interpolate(Sort(s), y));
  }

  lemma InterpolateRises(r: seq<int>, q: seq<int>, x: real)
    requires |r| == |q| && 0.0 <= x <= (|r| - 1) as real
    requires r[x.Floor] <= q[x.Floor] && r[Ceil(x)] <= q[Ceil(x)]
    ensures Interpolate(r, x) <= Interpolate(q, x)
  {
    BlendRises(r[x.Floor] as real, r[Ceil(x)] as real, q[x.Floor] as real, q[Ceil(x)] as real, x - x.Floor as real);
  }

  /** Slowing samples down never lowers a percentile. */
  lemma QuantileMonotoneInSamples(s: seq<int>, t: seq<int>, p: real)
    requires s != [] && |s| == |t| && 0.0 <= p <= 1.0
    requires forall i :: 0 <= i < |s| ==> s[i] <= t[i]
    ensures Quantile(s, p) <= Quantile(t, p)
  {
    SortSorts(s);
    SortSorts(t);
    var x := Position(|s|, p);
    SortMonotone(s, t, x.Floor);
    SortMonotone(s, t, Ceil(x));
    InterpolateRises(Sort(s), Sort(t), x);
    RoundMonotone(Interpolate(Sort(s), x), Interpolate(Sort(t), x));
  }
}
