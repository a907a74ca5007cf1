/** Sequence helpers shared by the analytics modules.

    Every recursive definition here is written "snoc-style": the result for
    `s` is the result for `s` without its last element, extended by what the
    last element contributes. A loop that handles one element per iteration
    and appends to a Python list therefore matches these definitions step by
    step. */
module Seqs {

  datatype Option<T> = None | Some(value: T)

  function Last<T>(s: seq<T>): T
    requires |s| > 0
  {
    s[|s| - 1]
  }

  /** `[x for x in s if p(x)]` */
  function Filter<T>(s: seq<T>, p: T -> bool): (r: seq<T>)
    ensures |r| <= |s|
  {
    if |s| == 0 then [] else Filter(s[..|s| - 1], p) + (if p(Last(s)) then [Last(s)] else [])
  }

  /** `[f(x) for x in s]` */
  function Map<T, U>(s: seq<T>, f: T -> U): (r: seq<U>)
    ensures |r| == |s|
    ensures forall i :: 0 <= i < |s| ==> r[i] == f(s[i])
  {
    if |s| == 0 then [] else Map(s[..|s| - 1], f) + [f(Last(s))]
  }

  /** Python's `sum(...)` over reals. */
  function Sum(s: seq<real>): real
  {
    if |s| == 0 then 0.0 else Sum(s[..|s| - 1]) + Last(s)
  }

  /** Python's `sum(...)` over counts. */
  function SumNat(s: seq<nat>): nat
  {
    if |s| == 0 then 0 else SumNat(s[..|s| - 1]) + Last(s)
  }

  /** The length of each run. */
  function Lengths<T>(ss: seq<seq<T>>): (r: seq<nat>)
    ensures |r| == |ss| && forall i :: 0 <= i < |ss| ==> r[i] == |ss[i]|
  {
    if |ss| == 0 then [] else Lengths(ss[..|ss| - 1]) + [|Last(ss)|]
  }

  /** The concatenation of a sequence of runs. */
  function Flatten<T>(ss: seq<seq<T>>): seq<T>
  {
    if |ss| == 0 then [] else Flatten(ss[..|ss| - 1]) + Last(ss)
  }

  /** Python's slice `s[:n]`: the first `n` elements, all of them when `n`
      is at least the length, and all but the last `-n` when `n` is negative. */
  function Take<T>(s: seq<T>, n: int): (r: seq<T>)
    ensures |r| <= |s| && r == s[..|r|]
    ensures 0 <= n ==> |r| == (if n < |s| then n else |s|)
    ensures n < 0 ==> |r| == (if -n < |s| then |s| + n else 0)
  {
    if n >= 0 then (if n < |s| then s[..n] else s)
    else if -n < |s| then s[..|s| + n] else []
  }

  /** A slice `s[:n]` holds elements of `s` only. */
  lemma TakeSubMultiset<T>(s: seq<T>, n: int)
    ensures multiset(Take(s, n)) <= multiset(s)
  {
    var r := Take(s, n);
    assert s == r + s[|r|..];
    assert multiset(s) == multiset(r) + multiset(s[|r|..]);
  }

  /** Python's slice `s[a:b]` for arbitrary integer bounds: negative bounds
      count from the end, then both are clamped to `[0, |s|]`, and an empty
      slice results when the start is not before the end. */
  function PyBound(n: nat, i: int): (b: nat)
    ensures b <= n
  {
    if i < 0 then (if i + n < 0 then 0 else i + n) else if i > n then n else i
  }

  function PySlice<T>(s: seq<T>, a: int, b: int): (r: seq<T>)
    ensures |r| <= |s|
  {
    var lo := PyBound(|s|, a);
    var hi := PyBound(|s|, b);
    if lo < hi then s[lo..hi] else []
  }

  lemma PySliceInRange<T>(s: seq<T>, a: int, b: int)
    requires 0 <= a <= b <= |s|
    ensures PySlice(s, a, b) == s[a..b]
  {
  }

  // ---------------------------------------------------------------------
  // Snoc and concatenation facts

  lemma PrefixSnoc<T>(s: seq<T>, i: nat)
    requires i < |s|
    ensures s[..i + 1] == s[..i] + [s[i]]
  {
  }

  lemma FilterSnoc<T>(s: seq<T>, x: T, p: T -> bool)
    ensures Filter(s + [x], p) == Filter(s, p) + (if p(x) then [x] else [])
  {
    assert (s + [x])[..|s|] == s;
  }

  lemma MapSnoc<T, U>(s: seq<T>, x: T, f: T -> U)
    ensures Map(s + [x], f) == Map(s, f) + [f(x)]
  {
    assert (s + [x])[..|s|] == s;
  }

  lemma SumSnoc(s: seq<real>, x: real)
    ensures Sum(s + [x]) == Sum(s) + x
  {
    assert (s + [x])[..|s|] == s;
  }

  /** One more element of a prefix adds its image to the sum. */
  lemma SumMapPrefix<T>(s: seq<T>, i: nat, f: T -> real)
    requires i < |s|
    ensures Sum(Map(s[..i + 1], f)) == Sum(Map(s[..i], f)) + f(s[i])
  {
    PrefixSnoc(s, i);
    MapSnoc(s[..i], s[i], f);
    SumSnoc(Map(s[..i], f), f(s[i]));
  }

  /** One more element of a prefix adds its image when it passes. */
  lemma MapFilterPrefix<T, U>(s: seq<T>, i: nat, p: T -> bool, f: T -> U)
    requires i < |s|
    ensures Map(Filter(s[..i + 1], p), f) == Map(Filter(s[..i], p), f) + (if p(s[i]) then [f(s[i])] else [])
  {
    PrefixSnoc(s, i);
    FilterSnoc(s[..i], s[i], p);
    if p(s[i]) {
      MapSnoc(Filter(s[..i], p), s[i], f);
    } else {
      assert Filter(s[..i + 1], p) == Filter(s[..i], p);
    }
  }

  lemma FlattenSnoc<T>(ss: seq<seq<T>>, x: seq<T>)
    ensures Flatten(ss + [x]) == Flatten(ss) + x
  {
    assert (ss + [x])[..|ss|] == ss;
  }

  lemma {:induction false} FilterConcat<T>(a: seq<T>, b: seq<T>, p: T -> bool)
    ensures Filter(a + b, p) == Filter(a, p) + Filter(b, p)
    decreases |b|
  {
    if |b| > 0 {
      var b' := b[..|b| - 1];
      assert a + b == (a + b') + [Last(b)];
      assert b == b' + [Last(b)];
      FilterSnoc(a + b', Last(b), p);
      FilterSnoc(b', Last(b), p);
      FilterConcat(a, b', p);
    } else {
      assert a + b == a;
    }
  }

  lemma {:induction false} SumConcat(a: seq<real>, b: seq<real>)
    ensures Sum(a + b) == Sum(a) + Sum(b)
    decreases |b|
  {
    if |b| > 0 {
      var b' := b[..|b| - 1];
      assert a + b == (a + b') + [Last(b)];
      assert b == b' + [Last(b)];
      SumSnoc(a + b', Last(b));
      SumSnoc(b', Last(b));
      SumConcat(a, b');
    } else {
      assert a + b == a;
    }
  }

  lemma {:induction false} MapConcat<T, U>(a: seq<T>, b: seq<T>, f: T -> U)
    ensures Map(a + b, f) == Map(a, f) + Map(b, f)
  {
    var l, r := Map(a + b, f), Map(a, f) + Map(b, f);
    assert |l| == |r|;
    forall i | 0 <= i < |l| ensures l[i] == r[i] {
      if i < |a| {
        assert (a + b)[i] == a[i];
      } else {
        assert (a + b)[i] == b[i - |a|];
      }
    }
  }

  // ---------------------------------------------------------------------
  // Facts about Filter

  lemma {:induction false} FilterMembership<T>(s: seq<T>, p: T -> bool, x: T)
    ensures x in Filter(s, p) <==> x in s && p(x)
  {
    if |s| > 0 {
      var s' := s[..|s| - 1];
      assert s == s' + [Last(s)];
      FilterMembership(s', p, x);
    }
  }

  /** A filter that every element passes keeps the whole sequence. */
  lemma {:induction false} FilterAll<T>(s: seq<T>, p: T -> bool)
    requires forall x :: x in s ==> p(x)
    ensures Filter(s, p) == s
  {
    if |s| > 0 {
      var s' := s[..|s| - 1];
      assert s == s' + [Last(s)];
      FilterAll(s', p);
    }
  }

  /** A filter that no element passes is empty. */
  lemma FilterNone<T>(s: seq<T>, p: T -> bool)
    requires forall x :: x in s ==> !p(x)
    ensures Filter(s, p) == []
  {
    var f := Filter(s, p);
    if |f| > 0 {
      FilterMembership(s, p, f[0]);
    }
  }

  /** Every element of a filter passes it. */
  lemma FilterElements<T>(s: seq<T>, p: T -> bool)
    ensures forall x :: x in Filter(s, p) ==> x in s && p(x)
  {
    forall x | x in Filter(s, p) ensures x in s && p(x) {
      FilterMembership(s, p, x);
    }
  }

  /** A predicate and its negation split a sequence between them. */
  lemma {:induction false} FilterPartition<T>(s: seq<T>, p: T -> bool, q: T -> bool)
    requires forall x :: q(x) == !p(x)
    ensures |Filter(s, p)| + |Filter(s, q)| == |s|
  {
    if |s| > 0 {
      var s' := s[..|s| - 1];
      assert s == s' + [Last(s)];
      FilterPartition(s', p, q);
    }
  }

  /** Filters by predicates that agree on the elements coincide. */
  lemma {:induction false} FilterCongruent<T>(s: seq<T>, p: T -> bool, q: T -> bool)
    requires forall x :: x in s ==> p(x) == q(x)
    ensures Filter(s, p) == Filter(s, q)
  {
    if |s| > 0 {
      var s' := s[..|s| - 1];
      assert s == s' + [Last(s)];
      assert forall x :: x in s' ==> x in s;
      FilterCongruent(s', p, q);
    }
  }

  /** An element of a filtered image is the image of an element that
      passes. */
  lemma MapFilterElements<T, U>(s: seq<T>, p: T -> bool, f: T -> U, y: U)
    requires y in Map(Filter(s, p), f)
    ensures exists x :: x in s && p(x) && y == f(x)
  {
    var t := Filter(s, p);
    var i :| 0 <= i < |t| && Map(t, f)[i] == y;
    FilterElements(s, p);
    assert t[i] in t;
  }

  /** Filtering twice by the same predicate changes nothing further. */
  lemma FilterIdempotent<T>(s: seq<T>, p: T -> bool)
    ensures Filter(Filter(s, p), p) == Filter(s, p)
  {
    FilterElements(s, p);
    FilterAll(Filter(s, p), p);
  }

  // ---------------------------------------------------------------------
  // Facts about Sum

  lemma {:induction false} SumNonNegative(s: seq<real>)
    requires forall i :: 0 <= i < |s| ==> s[i] >= 0.0
    ensures Sum(s) >= 0.0
  {
    if |s| > 0 {
      SumNonNegative(s[..|s| - 1]);
    }
  }

  lemma {:induction false} SumMonotone(a: seq<real>, b: seq<real>)
    requires |a| == |b|
    requires forall i :: 0 <= i < |a| ==> a[i] <= b[i]
    ensures Sum(a) <= Sum(b)
  {
    if |a| > 0 {
      SumMonotone(a[..|a| - 1], b[..|b| - 1]);
    }
  }

  /** A one-element sequence that passes the filter maps to one result. */
  lemma MapFilterOfOne<T, U>(x: T, p: T -> bool, f: T -> U)
    requires p(x)
    ensures Map(Filter([x], p), f) == [f(x)]
  {
    assert Filter([x], p) == Filter([], p) + [x];
  }

  lemma {:induction false} SumOfConstant(s: seq<real>, c: real)
    requires forall i :: 0 <= i < |s| ==> s[i] == c
    ensures Sum(s) == |s| as real * c
  {
    if |s| > 0 {
      SumOfConstant(s[..|s| - 1], c);
    }
  }

  /** A sum of terms each at most `c` is at most `|s|·c`. */
  lemma {:induction false} SumAtMost(s: seq<real>, c: real)
    requires forall i :: 0 <= i < |s| ==> s[i] <= c
    ensures Sum(s) <= |s| as real * c
  {
    if |s| > 0 {
      var s' := s[..|s| - 1];
      assert s == s' + [Last(s)];
      SumSnoc(s', Last(s));
      SumAtMost(s', c);
    }
  }

  lemma SumNatSnoc(s: seq<nat>, x: nat)
    ensures SumNat(s + [x]) == SumNat(s) + x
  {
    assert (s + [x])[..|s|] == s;
  }

  /** Concatenating runs keeps every element: the total length is the sum
      of the run lengths. */
  lemma {:induction false} FlattenLengths<T>(ss: seq<seq<T>>)
    ensures |Flatten(ss)| == SumNat(Lengths(ss))
  {
    if |ss| > 0 {
      FlattenLengths(ss[..|ss| - 1]);
    }
  }
}
