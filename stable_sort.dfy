/** Python's `list.sort(key=...)` and `sorted(..., key=...)`: a stable sort
    on a lexicographic key. A key is a pair, which covers both the plain
    numeric keys and the `(rank, -impact)` tuples used by the report code.
    `reverse=True` keeps the relative order of equal elements in Python, so
    a descending sort is modelled as an ascending sort on the negated key. */
module StableSort {
  import opened Seqs

  datatype Key = Key(major: real, minor: real)

  /** Strict lexicographic order on keys. */
  predicate Before(a: Key, b: Key)
  {
    a.major < b.major || (a.major == b.major && a.minor < b.minor)
  }

  /** No element is strictly before an element to its left. */
  predicate SortedBy<T>(s: seq<T>, key: T -> Key)
  {
    forall i, j :: 0 <= i < j < |s| ==> !Before(key(s[j]), key(s[i]))
  }

  /** Inserts `x` after every element whose key is not greater than `x`'s. */
  function Insert<T>(s: seq<T>, x: T, key: T -> Key): (r: seq<T>)
    ensures |r| == |s| + 1
    ensures multiset(r) == multiset(s) + multiset{x}
  {
    if |s| == 0 then [x]
    else if Before(key(x), key(Last(s))) then
      assert s == s[..|s| - 1] + [Last(s)];
      Insert(s[..|s| - 1], x, key) + [Last(s)]
    else s + [x]
  }

  /** Insertion sort, which is stable. */
  function SortBy<T>(xs: seq<T>, key: T -> Key): (r: seq<T>)
    ensures |r| == |xs|
    ensures multiset(r) == multiset(xs)
  {
    if |xs| == 0 then []
    else
      assert xs == xs[..|xs| - 1] + [Last(xs)];
      Insert(SortBy(xs[..|xs| - 1], key), Last(xs), key)
  }

  lemma {:induction false} InsertSorted<T>(s: seq<T>, x: T, key: T -> Key)
    requires SortedBy(s, key)
    ensures SortedBy(Insert(s, x, key), key)
    decreases |s|
  {
    if |s| > 0 && Before(key(x), key(Last(s))) {
      var s' := s[..|s| - 1];
      var l := Last(s);
      InsertSorted(s', x, key);
      var a := Insert(s', x, key);
      var r := a + [l];
      forall i | 0 <= i < |a| ensures !Before(key(l), key(a[i])) {
        assert a[i] in multiset(a);
        if a[i] != x {
          assert a[i] in multiset(s');
          var j :| 0 <= j < |s'| && s'[j] == a[i];
          assert s[j] == a[i];
        }
      }
      assert SortedBy(r, key);
    }
  }

  lemma {:induction false} SortBySorted<T>(xs: seq<T>, key: T -> Key)
    ensures SortedBy(SortBy(xs, key), key)
  {
    if |xs| > 0 {
      SortBySorted(xs[..|xs| - 1], key);
      InsertSorted(SortBy(xs[..|xs| - 1], key), Last(xs), key);
    }
  }

  /** Sorting already sorted input leaves it unchanged. */
  lemma {:induction false} SortBySortedInput<T>(xs: seq<T>, key: T -> Key)
    requires SortedBy(xs, key)
    ensures SortBy(xs, key) == xs
  {
    if |xs| > 0 {
      var p := xs[..|xs| - 1];
      assert SortedBy(p, key);
      SortBySortedInput(p, key);
      assert xs == p + [Last(xs)];
    }
  }

  /** The elements whose key equals `k`. */
  function HasKey<T>(key: T -> Key, k: Key): T -> bool
  {
    x => key(x) == k
  }

  lemma {:induction false} InsertStable<T>(s: seq<T>, x: T, key: T -> Key, k: Key)
    ensures Filter(Insert(s, x, key), HasKey(key, k))
         == Filter(s, HasKey(key, k)) + (if key(x) == k then [x] else [])
    decreases |s|, 1
  {
    if |s| == 0 {
      assert Insert(s, x, key) == [] + [x];
      FilterSnoc([], x, HasKey(key, k));
    } else if Before(key(x), key(Last(s))) {
      InsertStableBefore(s, x, key, k);
    } else {
      assert Insert(s, x, key) == s + [x];
      FilterSnoc(s, x, HasKey(key, k));
    }
  }

  /** The case where `x` moves in front of the last element `l`: the
      filter keeps `x` and `l` apart in at most one way, as `x` and `l`
      cannot both have key `k` when `x`'s key is strictly before `l`'s. */
  lemma {:induction false} InsertStableBefore<T>(s: seq<T>, x: T, key: T -> Key, k: Key)
    requires |s| > 0 && Before(key(x), key(Last(s)))
    ensures Filter(Insert(s, x, key), HasKey(key, k))
         == Filter(s, HasKey(key, k)) + (if key(x) == k then [x] else [])
    decreases |s|, 0
  {
    var p := HasKey(key, k);
    var fx := if key(x) == k then [x] else [];
    var s' := s[..|s| - 1];
    var l := Last(s);
    var fl := if p(l) then [l] else [];
    var a := Insert(s', x, key);
    assert s == s' + [l];
    assert Insert(s, x, key) == a + [l];
    assert Filter(a, p) == Filter(s', p) + fx by {
      InsertStable(s', x, key, k);
    }
    assert Filter(a + [l], p) == Filter(a, p) + fl by {
      FilterSnoc(a, l, p);
    }
    assert Filter(s, p) == Filter(s', p) + fl by {
      FilterSnoc(s', l, p);
    }
    SwapTail(Filter(s', p), fx, fl);
  }

  lemma SwapTail<T>(a: seq<T>, b: seq<T>, c: seq<T>)
    requires b == [] || c == []
    ensures a + b + c == a + c + b
  {
    if b == [] {
      assert a + b == a;
      assert a + c + b == a + c;
    } else {
      assert a + c == a;
      assert a + b + c == a + b;
    }
  }

  /** Stability: elements with equal keys keep their relative order. */
  lemma {:induction false} SortByStable<T>(xs: seq<T>, key: T -> Key, k: Key)
    ensures Filter(SortBy(xs, key), HasKey(key, k)) == Filter(xs, HasKey(key, k))
  {
    if |xs| > 0 {
      var p := HasKey(key, k);
      var xs' := xs[..|xs| - 1];
      assert xs == xs' + [Last(xs)];
      SortByStable(xs', key, k);
      InsertStable(SortBy(xs', key), Last(xs), key, k);
      FilterSnoc(xs', Last(xs), p);
    }
  }
}
