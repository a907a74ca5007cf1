/** The statistics kernel: descriptive statistics, numpy's linear
    percentile, IQR, z-score, grouping, rolling windows, outliers,
    completeness and gap detection. All arithmetic is exact (`real`); the
    standard deviation is represented by the population variance it is the
    square root of. */
module StatsUtils {
  import opened Seqs
  import opened StableSort
  import opened DateUtils

  // ---------------------------------------------------------------------
  // Sorting, minimum and maximum

  function RealKey(x: real): Key
  {
    Key(x, 0.0)
  }

  /** The values in ascending order (numpy sorts before interpolating). */
  function Sorted(values: seq<real>): (s: seq<real>)
    ensures |s| == |values| && multiset(s) == multiset(values)
  {
    SortBy(values, RealKey)
  }

  predicate Ascending(s: seq<real>)
  {
    forall i, j :: 0 <= i < j < |s| ==> s[i] <= s[j]
  }

  lemma SortedAscending(values: seq<real>)
    ensures Ascending(Sorted(values))
  {
    SortBySorted(values, RealKey);
    var s := Sorted(values);
    forall i, j | 0 <= i < j < |s| ensures s[i] <= s[j] {
      assert !Before(RealKey(s[j]), RealKey(s[i]));
    }
  }

  lemma SortedOfAscending(values: seq<real>)
    requires Ascending(values)
    ensures Sorted(values) == values
  {
    assert SortedBy(values, RealKey);
    SortBySortedInput(values, RealKey);
  }

  function MinOf(s: seq<real>): (m: real)
    requires |s| > 0
    ensures m in s && forall x :: x in s ==> m <= x
  {
    if |s| == 1 then s[0]
    else
      assert s == s[..|s| - 1] + [Last(s)];
      var m := MinOf(s[..|s| - 1]);
      if Last(s) < m then Last(s) else m
  }

  function MaxOf(s: seq<real>): (m: real)
    requires |s| > 0
    ensures m in s && forall x :: x in s ==> x <= m
  {
    if |s| == 1 then s[0]
    else
      assert s == s[..|s| - 1] + [Last(s)];
      var m := MaxOf(s[..|s| - 1]);
      if Last(s) > m then Last(s) else m
  }

  /** The ends of the sorted values are the minimum and the maximum. */
  lemma SortedEnds(values: seq<real>)
    requires |values| > 0
    ensures Sorted(values)[0] == MinOf(values)
    ensures Sorted(values)[|values| - 1] == MaxOf(values)
  {
    var s := Sorted(values);
    SortedAscending(values);
    var lo, hi := MinOf(values), MaxOf(values);
    assert s[0] in values && s[|s| - 1] in values by {
      assert s[0] in multiset(s) && s[|s| - 1] in multiset(s);
    }
    assert lo in s && hi in s by {
      assert lo in multiset(values) && hi in multiset(values);
    }
    var i :| 0 <= i < |s| && s[i] == lo;
    var j :| 0 <= j < |s| && s[j] == hi;
    assert s[0] <= s[i] && s[j] <= s[|s| - 1];
  }

  // ---------------------------------------------------------------------
  // Percentile

  /** The point at fraction `f` of the way from `a` to `b`. */
  function Lerp(a: real, b: real, f: real): (r: real)
    ensures a <= b && 0.0 <= f <= 1.0 ==> a <= r <= b
  {
    LerpStep(a, b, f);
    a + f * (b - a)
  }

  lemma LerpStep(a: real, b: real, f: real)
    ensures a <= b && 0.0 <= f <= 1.0 ==> 0.0 <= f * (b - a) <= b - a
  {
    if a <= b && 0.0 <= f <= 1.0 {
      MulNonNegative(f, b - a);
      MulNonNegative(1.0 - f, b - a);
      assert (1.0 - f) * (b - a) == (b - a) - f * (b - a);
    }
  }

  lemma LerpMonotone(a: real, b: real, f: real, g: real)
    requires a <= b && f <= g
    ensures Lerp(a, b, f) <= Lerp(a, b, g)
  {
    MulNonNegative(g - f, b - a);
    assert (g - f) * (b - a) == g * (b - a) - f * (b - a);
  }

  lemma MulNonNegative(a: real, b: real)
    requires a >= 0.0 && b >= 0.0
    ensures a * b >= 0.0
  {
  }

  /** Linear interpolation at fractional position `rank` of `s`. */
  function Interpolate(s: seq<real>, rank: real): real
    requires |s| > 0 && 0.0 <= rank <= (|s| - 1) as real
  {
    var lo := rank.Floor;
    var hi := if lo + 1 < |s| then lo + 1 else lo;
    Lerp(s[lo], s[hi], rank - lo as real)
  }

  /** numpy's virtual index `p/100 * (n - 1)` into `n` sorted values. */
  function Rank(p: real, n: nat): (r: real)
    requires n > 0 && 0.0 <= p <= 100.0
    ensures 0.0 <= r <= (n - 1) as real
  {
    LerpStep(0.0, (n - 1) as real, p / 100.0);
    p / 100.0 * (n - 1) as real
  }

  lemma RankMonotone(p: real, q: real, n: nat)
    requires n > 0 && 0.0 <= p <= q <= 100.0
    ensures Rank(p, n) <= Rank(q, n)
  {
    var m := (n - 1) as real;
    var f, g := p / 100.0, q / 100.0;
    MulLe(f, g, m);
    assert Rank(p, n) == f * m;
    assert Rank(q, n) == g * m;
  }

  lemma MulLe(f: real, g: real, m: real)
    requires f <= g && m >= 0.0
    ensures f * m <= g * m
  {
    MulNonNegative(g - f, m);
    assert (g - f) * m == g * m - f * m;
  }

  /** `percentile(values, p)`: 0 for no values, otherwise numpy's default
      ("linear") percentile, the interpolation at rank `p/100 * (n - 1)` of
      the sorted values. numpy rejects `p` outside `[0, 100]`. */
  function Percentile(values: seq<real>, p: real): (r: real)
    requires |values| == 0 || 0.0 <= p <= 100.0
    ensures |values| == 0 ==> r == 0.0
    ensures |values| > 0 ==> MinOf(values) <= r <= MaxOf(values)
  {
    if |values| == 0 then 0.0
    else
      var s := Sorted(values);
      var rank := Rank(p, |s|);
      SortedAscending(values);
      SortedEnds(values);
      InterpolateBounds(s, rank);
      Interpolate(s, rank)
  }

  lemma InterpolateBounds(s: seq<real>, rank: real)
    requires |s| > 0 && 0.0 <= rank <= (|s| - 1) as real
    requires Ascending(s)
    ensures s[0] <= Interpolate(s, rank) <= s[|s| - 1]
    ensures s[rank.Floor] <= Interpolate(s, rank)
    ensures rank.Floor + 1 < |s| ==> Interpolate(s, rank) <= s[rank.Floor + 1]
  {
    var lo := rank.Floor;
    var hi := if lo + 1 < |s| then lo + 1 else lo;
    assert s[0] <= s[lo] <= s[hi] <= s[|s| - 1];
  }

  /** On ascending values, interpolation is monotone in the rank. */
  lemma InterpolateMonotone(s: seq<real>, r1: real, r2: real)
    requires |s| > 0 && 0.0 <= r1 <= r2 <= (|s| - 1) as real
    requires Ascending(s)
    ensures Interpolate(s, r1) <= Interpolate(s, r2)
  {
    var lo1, lo2 := r1.Floor, r2.Floor;
    InterpolateBounds(s, r1);
    InterpolateBounds(s, r2);
    if lo1 == lo2 {
      var hi := if lo1 + 1 < |s| then lo1 + 1 else lo1;
      assert s[lo1] <= s[hi];
      LerpMonotone(s[lo1], s[hi], r1 - lo1 as real, r2 - lo1 as real);
    } else {
      assert lo1 < lo2;
      assert s[lo1 + 1] <= s[lo2];
    }
  }

  lemma PercentileZeroIsMin(values: seq<real>)
    requires |values| > 0
    ensures Percentile(values, 0.0) == MinOf(values)
  {
    var s := Sorted(values);
    assert Rank(0.0, |s|) == 0.0;
    assert (0.0).Floor == 0;
    assert Interpolate(s, 0.0) == s[0];
    SortedEnds(values);
  }

  lemma PercentileHundredIsMax(values: seq<real>)
    requires |values| > 0
    ensures Percentile(values, 100.0) == MaxOf(values)
  {
    var s := Sorted(values);
    var n := |values|;
    assert Rank(100.0, n) == (n - 1) as real;
    assert ((n - 1) as real).Floor == n - 1;
    assert Interpolate(s, (n - 1) as real) == s[n - 1];
    SortedEnds(values);
  }

  /** A higher percentile is never smaller. */
  lemma PercentileMonotone(values: seq<real>, p: real, q: real)
    requires 0.0 <= p <= q <= 100.0
    ensures Percentile(values, p) <= Percentile(values, q)
  {
    if |values| > 0 {
      var n := |values|;
      SortedAscending(values);
      RankMonotone(p, q, n);
      InterpolateMonotone(Sorted(values), Rank(p, n), Rank(q, n));
    }
  }

  /** The values 1.0, 2.0, ..., 10.0. */
  const OneToTen: seq<real> := seq(10, i => (i + 1) as real)

  /** The quartiles of 1..10 (rank 2.25 and 6.75 of the sorted values). */
  lemma QuartilesOfOneToTen()
    ensures Percentile(OneToTen, 25.0) == 3.25
    ensures Percentile(OneToTen, 75.0) == 7.75
    ensures Percentile(OneToTen, 50.0) == 5.5
  {
    var v := OneToTen;
    assert Ascending(v);
    assert Percentile(v, 25.0) == 3.25 by {
      assert Rank(25.0, 10) == 2.25;
      PercentileBetween(v, 25.0, 2, 0.25);
      assert Lerp(3.0, 4.0, 0.25) == 3.25;
    }
    assert Percentile(v, 75.0) == 7.75 by {
      assert Rank(75.0, 10) == 6.75;
      PercentileBetween(v, 75.0, 6, 0.75);
      assert Lerp(7.0, 8.0, 0.75) == 7.75;
    }
    assert Percentile(v, 50.0) == 5.5 by {
      assert Rank(50.0, 10) == 4.5;
      PercentileBetween(v, 50.0, 4, 0.5);
      assert Lerp(5.0, 6.0, 0.5) == 5.5;
    }
  }

  /** On ascending values whose rank falls `frac` past index `k`, the
      percentile interpolates between `v[k]` and `v[k + 1]`. */
  lemma PercentileBetween(v: seq<real>, p: real, k: nat, frac: real)
    requires Ascending(v) && 0.0 <= p <= 100.0 && k + 1 < |v|
    requires 0.0 <= frac < 1.0 && Rank(p, |v|) == k as real + frac
    ensures Percentile(v, p) == Lerp(v[k], v[k + 1], frac)
  {
    SortedOfAscending(v);
    var rank := Rank(p, |v|);
    assert Percentile(v, p) == Interpolate(v, rank);
    InterpolateAt(v, rank, k, frac);
  }

  /** A rank `frac` past index `k` interpolates between `s[k]` and
      `s[k + 1]`. */
  lemma InterpolateAt(s: seq<real>, rank: real, k: nat, frac: real)
    requires k + 1 < |s| && 0.0 <= frac < 1.0 && rank == k as real + frac
    ensures Interpolate(s, rank) == Lerp(s[k], s[k + 1], frac)
  {
    assert rank.Floor == k;
  }

  // ---------------------------------------------------------------------
  // Descriptive statistics

  function Mean(values: seq<real>): real
    requires |values| > 0
  {
    Sum(values) / |values| as real
  }

  function SquaredDeviation(mean: real): real -> real
  {
    x => (x - mean) * (x - mean)
  }

  /** Population variance (numpy's `std` has `ddof=0`; `std ** 2` is this). */
  function Variance(values: seq<real>): (v: real)
    requires |values| > 0
    ensures v >= 0.0
  {
    var d := Map(values, SquaredDeviation(Mean(values)));
    DeviationsNonNegative(values, Mean(values));
    Sum(d) / |values| as real
  }

  lemma DeviationsNonNegative(values: seq<real>, mean: real)
    ensures Sum(Map(values, SquaredDeviation(mean))) >= 0.0
  {
    var d := Map(values, SquaredDeviation(mean));
    forall i | 0 <= i < |d| ensures d[i] >= 0.0 {
      SquareNonNegative(values[i] - mean);
    }
    SumNonNegative(d);
  }

  lemma SquareNonNegative(e: real)
    ensures e * e >= 0.0
  {
    if e < 0.0 {
      MulNonNegative(-e, -e);
    } else {
      MulNonNegative(e, e);
    }
  }

  /** Summary statistics; `variance` stands for `std`, its square root. */
  datatype Stats = Stats(count: nat, sum: real, mean: real, min: real, max: real,
                         median: real, variance: real)

  const EmptyStats: Stats := Stats(0, 0.0, 0.0, 0.0, 0.0, 0.0, 0.0)

  lemma {:induction false} SumBounds(values: seq<real>, lo: real, hi: real)
    requires forall x :: x in values ==> lo <= x <= hi
    ensures |values| as real * lo <= Sum(values) <= |values| as real * hi
  {
    if |values| > 0 {
      var p := values[..|values| - 1];
      assert forall x :: x in p ==> x in values;
      SumBounds(p, lo, hi);
      assert Last(values) in values;
    }
  }

  lemma MulPositive(a: real, b: real)
    requires a > 0.0 && b > 0.0
    ensures a * b > 0.0
  {
  }

  lemma NegativeFactor(a: real, n: real)
    requires n > 0.0
    ensures a < 0.0 ==> a * n < 0.0
  {
    if a < 0.0 {
      MulPositive(-a, n);
      assert (-a) * n == -(a * n);
    }
  }

  /** Dividing the bounds `n * lo <= s <= n * hi` by `n > 0`. */
  lemma DivideBounds(s: real, n: real, lo: real, hi: real)
    requires n > 0.0 && n * lo <= s <= n * hi
    ensures lo <= s / n <= hi
    ensures s / n * n == s
  {
    var m := s / n;
    assert m * n == s;
    NegativeFactor(m - lo, n);
    assert (m - lo) * n == m * n - lo * n;
    NegativeFactor(hi - m, n);
    assert (hi - m) * n == hi * n - m * n;
  }

  /** The mean lies within any bounds of the values. */
  lemma MeanBetween(values: seq<real>, lo: real, hi: real)
    requires |values| > 0
    requires forall x :: x in values ==> lo <= x <= hi
    ensures lo <= Mean(values) <= hi
  {
    var n, total := |values| as real, Sum(values);
    assert n * lo <= total <= n * hi by {
      SumBounds(values, lo, hi);
    }
    assert lo <= total / n <= hi by {
      DivideBounds(total, n, lo, hi);
    }
  }

  function CalculateStats(values: seq<real>): (r: Stats)
    ensures |values| == 0 ==> r == EmptyStats
    ensures |values| > 0 ==>
      && r.count == |values|
      && r.sum == Sum(values)
      && r.mean == r.sum / |values| as real
      && r.min in values && r.max in values
      && (forall x :: x in values ==> r.min <= x <= r.max)
      && r.min <= r.median <= r.max
      && r.min <= r.mean <= r.max
      && r.median == Percentile(values, 50.0)
      && r.variance == Variance(values) && r.variance >= 0.0
  {
    if |values| == 0 then EmptyStats
    else
      MeanBetween(values, MinOf(values), MaxOf(values));
      Stats(|values|, Sum(values), Mean(values), MinOf(values), MaxOf(values),
            Percentile(values, 50.0), Variance(values))
  }

  /** Equal values have that value as mean and zero variance. */
  lemma ConstantVariance(n: nat, c: real)
    requires n > 0
    ensures Mean(seq(n, _ => c)) == c && Variance(seq(n, _ => c)) == 0.0
  {
    var v := seq(n, _ => c);
    assert Mean(v) == c by {
      ConstantMean(v, c);
    }
    assert Sum(Map(v, SquaredDeviation(c))) == 0.0 by {
      NoDeviation(v, c);
    }
  }

  lemma ConstantMean(v: seq<real>, c: real)
    requires |v| > 0 && forall i :: 0 <= i < |v| ==> v[i] == c
    ensures Mean(v) == c
  {
    MeanBetween(v, c, c);
  }

  lemma NoDeviation(v: seq<real>, c: real)
    requires forall i :: 0 <= i < |v| ==> v[i] == c
    ensures Sum(Map(v, SquaredDeviation(c))) == 0.0
  {
    var d := Map(v, SquaredDeviation(c));
    forall i | 0 <= i < |d| ensures d[i] == 0.0 {
      DeviationAtMean(v[i], c);
    }
    SumOfConstant(d, 0.0);
  }

  lemma DeviationAtMean(x: real, c: real)
    requires x == c
    ensures SquaredDeviation(c)(x) == 0.0
  {
  }

  datatype Iqr = Iqr(q1: real, q3: real, iqr: real)

  function CalculateIqr(values: seq<real>): (r: Iqr)
    ensures |values| == 0 ==> r == Iqr(0.0, 0.0, 0.0)
    ensures r.q1 == Percentile(values, 25.0) && r.q3 == Percentile(values, 75.0)
    ensures r.iqr == r.q3 - r.q1 && r.iqr >= 0.0
  {
    if |values| == 0 then Iqr(0.0, 0.0, 0.0)
    else
      PercentileMonotone(values, 25.0, 75.0);
      var q1 := Percentile(values, 25.0);
      var q3 := Percentile(values, 75.0);
      Iqr(q1, q3, q3 - q1)
  }

  lemma IqrOfOneToTen()
    ensures CalculateIqr(OneToTen) == Iqr(3.25, 7.75, 4.5)
  {
    QuartilesOfOneToTen();
  }

  /** Standard deviations from the mean; 0 when the deviation is 0. */
  function ZScore(value: real, mean: real, std: real): (z: real)
    ensures std == 0.0 ==> z == 0.0
    ensures std != 0.0 ==> mean + z * std == value
  {
    if std == 0.0 then 0.0 else (value - mean) / std
  }

  function Positive(v: real): bool
  {
    v > 0.0
  }

  /** The percentile of the strictly positive values only. */
  function NonZeroPercentile(values: seq<real>, p: real): (r: real)
    requires Filter(values, Positive) == [] || 0.0 <= p <= 100.0
    ensures Filter(values, Positive) == [] ==> r == 0.0
    ensures Filter(values, Positive) != [] ==> r > 0.0 && exists x :: x in values && x <= r
    ensures var nonZero := Filter(values, Positive);
      nonZero != [] ==> MinOf(nonZero) <= r <= MaxOf(nonZero)
    ensures var nonZero := Filter(values, Positive);
      nonZero != [] && p == 0.0 ==> r == MinOf(nonZero)
    ensures var nonZero := Filter(values, Positive);
      nonZero != [] && p == 100.0 ==> r == MaxOf(nonZero)
  {
    var nonZero := Filter(values, Positive);
    PositivePercentile(values, p);
    if nonZero == [] then Percentile(nonZero, p)
    else
      PercentileZeroIsMin(nonZero);
      PercentileHundredIsMax(nonZero);
      Percentile(nonZero, p)
  }

  lemma PositivePercentile(values: seq<real>, p: real)
    requires Filter(values, Positive) == [] || 0.0 <= p <= 100.0
    ensures var nonZero := Filter(values, Positive);
      nonZero != [] ==> Percentile(nonZero, p) > 0.0 && exists x :: x in values && x <= Percentile(nonZero, p)
  {
    var nonZero := Filter(values, Positive);
    if nonZero != [] {
      FilterElements(values, Positive);
      assert MinOf(nonZero) in nonZero;
    }
  }

  // ---------------------------------------------------------------------
  // group_by

  function KeyIs<T, K(==)>(keyOf: T -> K, k: K): T -> bool
  {
    x => keyOf(x) == k
  }

  /** The distinct keys in order of first occurrence (a Python dict's key order). */
  function DistinctKeys<T, K(==)>(items: seq<T>, keyOf: T -> K): (r: seq<K>)
    ensures forall i, j :: 0 <= i < j < |r| ==> r[i] != r[j]
    ensures forall x :: x in items ==> keyOf(x) in r
    ensures forall k :: k in r ==> exists x :: x in items && keyOf(x) == k
  {
    if |items| == 0 then []
    else
      var p := items[..|items| - 1];
      assert items == p + [Last(items)];
      var keys := DistinctKeys(p, keyOf);
      if keyOf(Last(items)) in keys then keys else keys + [keyOf(Last(items))]
  }

  lemma DistinctKeysSnoc<T, K>(items: seq<T>, x: T, keyOf: T -> K)
    ensures var keys := DistinctKeys(items, keyOf);
      DistinctKeys(items + [x], keyOf) == if keyOf(x) in keys then keys else keys + [keyOf(x)]
  {
    assert (items + [x])[..|items|] == items;
  }

  /** The bucket sizes of `keys`, added up. */
  function BucketTotal<T, K(==)>(keys: seq<K>, items: seq<T>, keyOf: T -> K): nat
  {
    if |keys| == 0 then 0
    else BucketTotal(keys[..|keys| - 1], items, keyOf) + |Filter(items, KeyIs(keyOf, Last(keys)))|
  }

  /** `groups` and `order` are the dict `group_by` builds from `items`. */
  ghost predicate Grouped<T, K(!new)>(groups: map<K, seq<T>>, order: seq<K>, items: seq<T>, keyOf: T -> K)
  {
    && order == DistinctKeys(items, keyOf)
    && (forall k :: k in groups <==> k in order)
    && (forall k :: k in groups ==> groups[k] == Filter(items, KeyIs(keyOf, k)))
  }

  /** The dict after `groups.setdefault(key, []).append(x)`. */
  function AddItem<T, K>(groups: map<K, seq<T>>, key: K, x: T): map<K, seq<T>>
  {
    var g := if key in groups then groups else groups[key := []];
    g[key := g[key] + [x]]
  }

  /** The key order after that step: a new key goes last. */
  function AddKey<K(==)>(order: seq<K>, key: K): seq<K>
  {
    if key in order then order else order + [key]
  }

  /** Adding an item to its key's bucket keeps the dict grouped. */
  lemma GroupedSnoc<T, K(!new)>(groups: map<K, seq<T>>, order: seq<K>, items: seq<T>, x: T, keyOf: T -> K)
    requires Grouped(groups, order, items, keyOf)
    ensures Grouped(AddItem(groups, keyOf(x), x), AddKey(order, keyOf(x)), items + [x], keyOf)
  {
    var key := keyOf(x);
    var g := if key in groups then groups else groups[key := []];
    var o := AddKey(order, key);
    var g' := AddItem(groups, key, x);
    assert o == DistinctKeys(items + [x], keyOf) by {
      DistinctKeysSnoc(items, x, keyOf);
    }
    assert g[key] == Filter(items, KeyIs(keyOf, key)) by {
      if key !in groups {
        assert key !in DistinctKeys(items, keyOf);
        forall y | y in items ensures !KeyIs(keyOf, key)(y) {
          assert keyOf(y) in DistinctKeys(items, keyOf);
        }
        FilterNone(items, KeyIs(keyOf, key));
      }
    }
    assert forall k :: k in g' <==> k in o;
    forall k | k in g' ensures g'[k] == Filter(items + [x], KeyIs(keyOf, k)) {
      FilterSnoc(items, x, KeyIs(keyOf, k));
      if k != key {
        assert g'[k] == groups[k];
      }
    }
    assert Grouped(g', o, items + [x], keyOf);
  }

  /** `group_by(items, keyOf)` as a dict: the buckets and their key order. */
  method GroupBy<T, K(==, !new)>(items: seq<T>, keyOf: T -> K) returns (groups: map<K, seq<T>>, order: seq<K>)
    ensures Grouped(groups, order, items, keyOf)
  {
    groups, order := map[], [];
    for i := 0 to |items|
      invariant Grouped(groups, order, items[..i], keyOf)
    {
      var x := items[i];
      var key := keyOf(x);
      assert items[..i + 1] == items[..i] + [x];
      GroupedSnoc(groups, order, items[..i], x, keyOf);
      ghost var next, nextOrder := AddItem(groups, key, x), AddKey(order, key);
      if key !in groups {
        groups := groups[key := []];
        order := order + [key];
      }
      groups := groups[key := groups[key] + [x]];
      assert groups == next && order == nextOrder;
    }
    assert items[..|items|] == items;
  }

  /** Every item is in the bucket of its own key. */
  lemma GroupByPlacesEveryItem<T, K>(items: seq<T>, keyOf: T -> K, x: T)
    requires x in items
    ensures keyOf(x) in DistinctKeys(items, keyOf)
    ensures x in Filter(items, KeyIs(keyOf, keyOf(x)))
  {
    FilterMembership(items, KeyIs(keyOf, keyOf(x)), x);
  }

  lemma {:induction false} BucketTotalSnoc<T, K>(keys: seq<K>, items: seq<T>, x: T, keyOf: T -> K)
    requires forall i, j :: 0 <= i < j < |keys| ==> keys[i] != keys[j]
    ensures BucketTotal(keys, items + [x], keyOf)
         == BucketTotal(keys, items, keyOf) + (if keyOf(x) in keys then 1 else 0)
  {
    if |keys| > 0 {
      var ks := keys[..|keys| - 1];
      var kl := Last(keys);
      assert keys == ks + [kl];
      BucketTotalSnoc(ks, items, x, keyOf);
      FilterSnoc(items, x, KeyIs(keyOf, kl));
      assert kl !in ks;
    }
  }

  /** The bucket sizes add up to the number of items. */
  lemma {:induction false} GroupSizesSum<T, K>(items: seq<T>, keyOf: T -> K)
    ensures BucketTotal(DistinctKeys(items, keyOf), items, keyOf) == |items|
  {
    if |items| > 0 {
      var p := items[..|items| - 1];
      var x := Last(items);
      var k0 := keyOf(x);
      assert items == p + [x];
      var keys := DistinctKeys(p, keyOf);
      GroupSizesSum(p, keyOf);
      BucketTotalSnoc(keys, p, x, keyOf);
      if k0 !in keys {
        var ext := keys + [k0];
        assert ext[..|ext| - 1] == keys;
        FilterNone(p, KeyIs(keyOf, k0));
        FilterSnoc(p, x, KeyIs(keyOf, k0));
      }
    }
  }

  // ---------------------------------------------------------------------
  // Rolling windows

  /** `values[i - w + 1 : i + 1]` with Python's slice rules. */
  function TrailingWindow(values: seq<real>, w: int, i: int): (r: seq<real>)
    ensures 1 <= w && w - 1 <= i < |values| ==> r == values[i - w + 1..i + 1] && |r| == w
  {
    PySlice(values, i - w + 1, i + 1)
  }

  /** The number of indices in `range(w - 1, n)`. */
  function WindowCount(n: nat, w: int): nat
  {
    if n - w + 1 < 0 then 0 else n - w + 1
  }

  /** `f(i, values[i - w + 1 : i + 1])` for every index `i` in
      `range(w - 1, len(values))`, in order: the loop shared by
      `rolling_stats` and `rolling_variance`. */
  method MapWindows<U>(values: seq<real>, windowSize: int, f: (int, seq<real>) -> U)
    returns (results: seq<U>)
    ensures |results| == WindowCount(|values|, windowSize)
    ensures forall j :: 0 <= j < |results| ==>
      results[j] == f(windowSize - 1 + j, TrailingWindow(values, windowSize, windowSize - 1 + j))
  {
    results := [];
    var i := windowSize - 1;
    while i < |values|
      invariant i == windowSize - 1 + |results|
      invariant |values| - windowSize + 1 >= 0 ==> |results| <= |values| - windowSize + 1
      invariant |values| - windowSize + 1 < 0 ==> |results| == 0
      invariant forall j :: 0 <= j < |results| ==>
        results[j] == f(windowSize - 1 + j, TrailingWindow(values, windowSize, windowSize - 1 + j))
      decreases |values| - i
    {
      var window := PySlice(values, i - windowSize + 1, i + 1);
      results := results + [f(i, window)];
      i := i + 1;
    }
  }

  datatype RollingStatsEntry = RollingStatsEntry(index: int, stats: Stats)

  method RollingStats(values: seq<real>, windowSize: int) returns (results: seq<RollingStatsEntry>)
    ensures |results| == WindowCount(|values|, windowSize)
    ensures forall j :: 0 <= j < |results| ==>
      && results[j].index == windowSize - 1 + j
      && results[j].stats == CalculateStats(TrailingWindow(values, windowSize, windowSize - 1 + j))
  {
    results := MapWindows(values, windowSize, (i, window) => RollingStatsEntry(i, CalculateStats(window)));
  }

  /** One `rolling_variance` entry; `std` is the square root of `variance`. */
  datatype RollingVarianceEntry = RollingVarianceEntry(index: int, variance: real, mean: real)

  function VarianceEntry(i: int, window: seq<real>): RollingVarianceEntry
  {
    var s := CalculateStats(window);
    RollingVarianceEntry(i, s.variance, s.mean)
  }

  /** The entries of `rolling_variance(values, w)`, one per trailing window. */
  function RollingVarianceOf(values: seq<real>, w: int): seq<RollingVarianceEntry>
  {
    seq(WindowCount(|values|, w), j => VarianceEntry(w - 1 + j, TrailingWindow(values, w, w - 1 + j)))
  }

  method RollingVariance(values: seq<real>, windowSize: int) returns (results: seq<RollingVarianceEntry>)
    ensures results == RollingVarianceOf(values, windowSize)
  {
    results := MapWindows(values, windowSize, VarianceEntry);
  }

  /** One entry per index `i` in `range(w - 1, len(values))`, carrying the
      variance and mean of the window ending at `i`. */
  lemma RollingVarianceEntries(values: seq<real>, w: int, j: int)
    requires 0 <= j < WindowCount(|values|, w)
    ensures |RollingVarianceOf(values, w)| == WindowCount(|values|, w)
    ensures RollingVarianceOf(values, w)[j].index == w - 1 + j
    ensures RollingVarianceOf(values, w)[j].variance == CalculateStats(TrailingWindow(values, w, w - 1 + j)).variance
    ensures RollingVarianceOf(values, w)[j].mean == CalculateStats(TrailingWindow(values, w, w - 1 + j)).mean
  {
    var e := RollingVarianceOf(values, w)[j];
    assert e == VarianceEntry(w - 1 + j, TrailingWindow(values, w, w - 1 + j));
  }

  /** With `1 <= w <= n` the entries are indices `w-1 .. n-1`, each over the
      `w` values ending at its index. */
  lemma RollingVarianceWindows(values: seq<real>, w: int, j: int)
    requires 1 <= w <= |values| && 0 <= j < WindowCount(|values|, w)
    ensures WindowCount(|values|, w) == |values| - w + 1
    ensures TrailingWindow(values, w, w - 1 + j) == values[j..j + w]
    ensures CalculateStats(TrailingWindow(values, w, w - 1 + j)).count == w
  {
  }

  // ---------------------------------------------------------------------
  // Outliers and completeness

  datatype Outlier = Outlier(value: real, index: int, isOutlier: bool, lowerBound: real, upperBound: real)

  datatype Fences = Fences(lower: real, upper: real)

  /** Tukey fences `q1 - m * iqr` and `q3 + m * iqr`; with `m >= 0` they
      enclose the quartiles. */
  function TukeyFences(q: Iqr, multiplier: real): (f: Fences)
    ensures q.iqr >= 0.0 && multiplier >= 0.0 ==> f.lower <= q.q1 && q.q3 <= f.upper
  {
    FenceSpread(q.iqr, multiplier);
    Fences(q.q1 - multiplier * q.iqr, q.q3 + multiplier * q.iqr)
  }

  lemma FenceSpread(iqr: real, multiplier: real)
    ensures iqr >= 0.0 && multiplier >= 0.0 ==> multiplier * iqr >= 0.0
  {
    if iqr >= 0.0 && multiplier >= 0.0 {
      MulNonNegative(multiplier, iqr);
    }
  }

  /** One record per value, flagged when it lies outside the fences. */
  function Classify(values: seq<real>, f: Fences): (r: seq<Outlier>)
    ensures |r| == |values|
    ensures forall i :: 0 <= i < |r| ==>
      && r[i].value == values[i] && r[i].index == i
      && r[i].lowerBound == f.lower && r[i].upperBound == f.upper
      && (r[i].isOutlier <==> !(f.lower <= values[i] <= f.upper))
  {
    seq(|values|, i requires 0 <= i < |values| =>
      Outlier(values[i], i, values[i] < f.lower || values[i] > f.upper, f.lower, f.upper))
  }

  /** `detect_outliers`: every value classified against the Tukey fences
      of the values' own quartiles. */
  function DetectOutliers(values: seq<real>, multiplier: real): (r: seq<Outlier>)
    ensures var f := TukeyFences(CalculateIqr(values), multiplier);
      && |r| == |values|
      && forall i :: 0 <= i < |r| ==>
        && r[i].value == values[i] && r[i].index == i
        && r[i].lowerBound == f.lower && r[i].upperBound == f.upper
        && (r[i].isOutlier <==> !(f.lower <= values[i] <= f.upper))
  {
    Classify(values, TukeyFences(CalculateIqr(values), multiplier))
  }

  /** With a non-negative multiplier, values between the quartiles are never outliers. */
  lemma InterquartileValuesAreNotOutliers(values: seq<real>, multiplier: real, i: int)
    requires multiplier >= 0.0 && 0 <= i < |values|
    requires CalculateIqr(values).q1 <= values[i] <= CalculateIqr(values).q3
    ensures !DetectOutliers(values, multiplier)[i].isOutlier
  {
  }

  /** `actual / expected * 100`, or 0 when nothing is expected. */
  function CalculateCompleteness(actual: int, expected: int): (r: real)
    ensures expected == 0 ==> r == 0.0
  {
    if expected == 0 then 0.0 else (actual as real / expected as real) * 100.0
  }

  /** Completeness is the percentage of the expected count that is present. */
  lemma CompletenessScales(actual: int, expected: int)
    requires expected != 0
    ensures CalculateCompleteness(actual, expected) * expected as real == actual as real * 100.0
  {
  }

  lemma CompletenessIsPercentage(actual: int, expected: int)
    requires 0 <= actual <= expected
    ensures 0.0 <= CalculateCompleteness(actual, expected) <= 100.0
    ensures expected > 0 && actual == expected ==> CalculateCompleteness(actual, expected) == 100.0
  {
    if expected > 0 {
      var r := CalculateCompleteness(actual, expected);
      CompletenessScales(actual, expected);
      assert r * expected as real == actual as real * 100.0;
      assert r * expected as real <= expected as real * 100.0;
    }
  }

  // ---------------------------------------------------------------------
  // find_gaps

  /** Python's `round` to an integer: to the nearest, ties to even. */
  function RoundHalfEven(x: real): (r: int)
    ensures -0.5 <= r as real - x <= 0.5
    ensures (r as real - x == 0.5 || r as real - x == -0.5) ==> r % 2 == 0
  {
    var f := x.Floor;
    var d := x - f as real;
    if d < 0.5 then f
    else if d > 0.5 then f + 1
    else if f % 2 == 0 then f else f + 1
  }

  datatype Gap = Gap(start: DateTime, end: DateTime, expectedIntervals: int,
                     actualInterval: int, missingIntervals: int)

  /** The consecutive pairs `(s[k], s[k+1])`. */
  function Pairs<T>(s: seq<T>): (r: seq<(T, T)>)
    ensures |r| == (if |s| == 0 then 0 else |s| - 1)
    ensures forall k :: 0 <= k < |r| ==> r[k] == (s[k], s[k + 1])
  {
    if |s| < 2 then [] else Pairs(s[..|s| - 1]) + [(s[|s| - 2], s[|s| - 1])]
  }

  /** `expected_interval_seconds * 1.1`, the longest interval that is not a
      gap. */
  function Tolerance(expected: int): real
  {
    expected as real * 1.1
  }

  /** `actual_interval / expected_interval_seconds`. */
  function Ratio(actual: int, expected: int): real
    requires expected != 0
  {
    actual as real / expected as real
  }

  /** A pair is a gap when it is more than 10% longer than expected. */
  function IsGap(expected: int): ((DateTime, DateTime)) -> bool
  {
    (pair: (DateTime, DateTime)) => (pair.1.utc - pair.0.utc) as real > Tolerance(expected)
  }

  function MakeGap(expected: int): ((DateTime, DateTime)) -> Gap
    requires expected != 0
  {
    (pair: (DateTime, DateTime)) =>
      var actual := pair.1.utc - pair.0.utc;
      var n := RoundHalfEven(Ratio(actual, expected));
      Gap(pair.0, pair.1, n, actual, n - 1)
  }

  /** The gaps of a series: one per consecutive pair that is a gap, in order. */
  function GapsOf(timestamps: seq<DateTime>, expected: int): seq<Gap>
    requires expected != 0
  {
    Map(Filter(Pairs(timestamps), IsGap(expected)), MakeGap(expected))
  }

  method FindGaps(timestamps: seq<DateTime>, expectedIntervalSeconds: int) returns (gaps: seq<Gap>)
    requires expectedIntervalSeconds != 0
    ensures gaps == GapsOf(timestamps, expectedIntervalSeconds)
  {
    var e := expectedIntervalSeconds;
    gaps := [];
    if |timestamps| == 0 {
      NoGapsInOne(timestamps, e);
      return;
    }
    NoGapsInOne(timestamps[..1], e);
    for i := 1 to |timestamps|
      invariant gaps == GapsOf(timestamps[..i], e)
    {
      var pair := (timestamps[i - 1], timestamps[i]);
      PairStep(timestamps, i, e);
      if IsGap(e)(pair) {
        gaps := gaps + [MakeGap(e)(pair)];
      }
    }
    assert timestamps[..|timestamps|] == timestamps;
    assert gaps == GapsOf(timestamps, e);
  }

  /** No reading or a single reading has no gap. */
  lemma NoGapsInOne(timestamps: seq<DateTime>, e: int)
    requires e != 0 && |timestamps| <= 1
    ensures GapsOf(timestamps, e) == []
  {
    assert Pairs(timestamps) == [];
  }

  /** The gaps of `timestamps[..i + 1]` extend those of `timestamps[..i]`
      with the gap of the pair ending at `i`, if it is one. */
  lemma PairStep(timestamps: seq<DateTime>, i: int, e: int)
    requires e != 0 && 1 <= i < |timestamps|
    ensures var pair := (timestamps[i - 1], timestamps[i]);
      GapsOf(timestamps[..i + 1], e)
        == GapsOf(timestamps[..i], e) + if IsGap(e)(pair) then [MakeGap(e)(pair)] else []
  {
    assert timestamps[..i + 1] == timestamps[..i] + [timestamps[i]];
    assert Last(timestamps[..i]) == timestamps[i - 1];
    GapsOfSnoc(timestamps[..i], timestamps[i], e);
  }

  lemma GapOfPair(prev: DateTime, curr: DateTime, expected: int)
    requires expected != 0
    ensures var actual := curr.utc - prev.utc;
      var n := RoundHalfEven(actual as real / expected as real);
      && (IsGap(expected)((prev, curr)) <==> actual as real > expected as real * 1.1)
      && MakeGap(expected)((prev, curr)) == Gap(prev, curr, n, actual, n - 1)
  {
  }

  /** A new reading adds at most the gap it closes. */
  lemma GapsOfSnoc(timestamps: seq<DateTime>, t: DateTime, expected: int)
    requires expected != 0 && |timestamps| > 0
    ensures var pair := (Last(timestamps), t);
      GapsOf(timestamps + [t], expected)
        == GapsOf(timestamps, expected) + if IsGap(expected)(pair) then [MakeGap(expected)(pair)] else []
  {
    var pair := (Last(timestamps), t);
    var ps := Pairs(timestamps);
    assert Pairs(timestamps + [t]) == ps + [pair] by {
      assert (timestamps + [t])[..|timestamps|] == timestamps;
    }
    FilterSnoc(ps, pair, IsGap(expected));
    MapSnoc(Filter(ps, IsGap(expected)), pair, MakeGap(expected));
  }

  /** Exactly the consecutive pairs longer than 1.1 intervals produce a gap. */
  lemma GapIffLongPair(timestamps: seq<DateTime>, expected: int, i: int)
    requires expected != 0 && 1 <= i < |timestamps|
    ensures var pair := (timestamps[i - 1], timestamps[i]);
      var long := (timestamps[i].utc - timestamps[i - 1].utc) as real > expected as real * 1.1;
      long <==> MakeGap(expected)(pair) in GapsOf(timestamps, expected)
  {
    var pair := (timestamps[i - 1], timestamps[i]);
    var ps := Pairs(timestamps);
    var kept := Filter(ps, IsGap(expected));
    var gaps := GapsOf(timestamps, expected);
    var g := MakeGap(expected)(pair);
    assert ps[i - 1] == pair;
    FilterMembership(ps, IsGap(expected), pair);
    if IsGap(expected)(pair) {
      var k :| 0 <= k < |kept| && kept[k] == pair;
      assert gaps[k] == g;
    }
    if g in gaps {
      var k :| 0 <= k < |gaps| && gaps[k] == g;
      assert gaps[k] == MakeGap(expected)(kept[k]);
      assert kept[k] == pair;
      assert pair in kept;
    }
  }

  /** A 3-hour hole in a 15-minute series: 12 intervals, 11 of them missing. */
  lemma ThreeHourGapAtQuarterHour(t: DateTime)
    ensures var ts := [t, AddSeconds(t, 10800)];
      GapsOf(ts, 900) == [Gap(ts[0], ts[1], 12, 10800, 11)]
  {
    var t' := AddSeconds(t, 10800);
    GapsOfTwo(t, t', 900);
    assert MakeGap(900)((t, t')) == Gap(t, t', 12, 10800, 11) by {
      assert 10800 as real / 900 as real == 12.0;
      RoundWhole(12);
    }
  }

  /** Two readings further apart than 1.1 intervals form one gap. */
  lemma GapsOfTwo(a: DateTime, b: DateTime, expected: int)
    requires expected != 0 && IsGap(expected)((a, b))
    ensures GapsOf([a, b], expected) == [MakeGap(expected)((a, b))]
  {
    assert Pairs([a, b]) == [(a, b)];
    MapFilterOfOne((a, b), IsGap(expected), MakeGap(expected));
  }

  /** Rounding a whole number gives it back. */
  lemma RoundWhole(n: int)
    ensures RoundHalfEven(n as real) == n
  {
    assert (n as real).Floor == n;
  }
}
