/** Splitting a sequence into maximal runs of consecutive elements, as the
    anomaly and spike detectors group flagged readings into events: an
    element joins the current run when it is close enough to the run's last
    element, and otherwise starts a new run. */
module EventRuns {
  import opened Seqs

  function Runs<T>(xs: seq<T>, joins: (T, T) -> bool): (r: seq<seq<T>>)
    ensures |r| == 0 <==> |xs| == 0
    ensures forall i :: 0 <= i < |r| ==> |r[i]| > 0
  {
    if |xs| == 0 then []
    else
      var rs := Runs(xs[..|xs| - 1], joins);
      var x := Last(xs);
      if |rs| > 0 && joins(Last(Last(rs)), x) then rs[..|rs| - 1] + [Last(rs) + [x]]
      else rs + [[x]]
  }

  /** The runs of `xs + [x]`: `x` extends the last run when it joins its
      last element, and starts a run of its own otherwise. */
  lemma RunsSnoc<T>(xs: seq<T>, x: T, joins: (T, T) -> bool)
    ensures var rs := Runs(xs, joins);
      Runs(xs + [x], joins)
      == if |rs| > 0 && joins(Last(Last(rs)), x) then rs[..|rs| - 1] + [Last(rs) + [x]] else rs + [[x]]
  {
    assert (xs + [x])[..|xs|] == xs;
  }

  /** Grouping drops and reorders nothing. */
  lemma {:induction false} RunsFlatten<T>(xs: seq<T>, joins: (T, T) -> bool)
    ensures Flatten(Runs(xs, joins)) == xs
  {
    if |xs| > 0 {
      var p, x := xs[..|xs| - 1], Last(xs);
      var rs := Runs(p, joins);
      assert Flatten(rs) == p by {
        RunsFlatten(p, joins);
      }
      assert xs == p + [x];
      RunsSnoc(p, x, joins);
      if |rs| > 0 && joins(Last(Last(rs)), x) {
        FlattenExtendLast(rs, x);
      } else {
        FlattenSnoc(rs, [x]);
      }
    }
  }

  /** Appending to the last run appends to the flattening. */
  lemma FlattenExtendLast<T>(rs: seq<seq<T>>, x: T)
    requires |rs| > 0
    ensures Flatten(rs[..|rs| - 1] + [Last(rs) + [x]]) == Flatten(rs) + [x]
  {
    var init, last := rs[..|rs| - 1], Last(rs);
    assert Flatten(rs) == Flatten(init) + last;
    FlattenSnoc(init, last + [x]);
    AppendAssoc(Flatten(init), last, [x]);
  }

  lemma AppendAssoc<T>(a: seq<T>, b: seq<T>, c: seq<T>)
    ensures a + (b + c) == (a + b) + c
  {
  }

  /** Within a run, each element joins its predecessor. */
  lemma {:induction false} RunsJoinWithin<T>(xs: seq<T>, joins: (T, T) -> bool, i: int, k: int)
    requires 0 <= i < |Runs(xs, joins)| && 0 <= k < |Runs(xs, joins)[i]| - 1
    ensures joins(Runs(xs, joins)[i][k], Runs(xs, joins)[i][k + 1])
  {
    var p, x := xs[..|xs| - 1], Last(xs);
    var rs := Runs(p, joins);
    if |rs| > 0 && joins(Last(Last(rs)), x) {
      if i < |rs| - 1 {
        RunsJoinWithin(p, joins, i, k);
      } else if k < |Last(rs)| - 1 {
        RunsJoinWithin(p, joins, i, k);
      }
    } else if i < |rs| {
      RunsJoinWithin(p, joins, i, k);
    }
  }

  /** Between two consecutive runs, the first element of the later run does
      not join the last element of the earlier one: the runs are maximal. */
  lemma {:induction false} RunsSplitBetween<T>(xs: seq<T>, joins: (T, T) -> bool, i: int)
    requires 0 <= i < |Runs(xs, joins)| - 1
    ensures !joins(Last(Runs(xs, joins)[i]), Runs(xs, joins)[i + 1][0])
  {
    var p, x := xs[..|xs| - 1], Last(xs);
    var rs := Runs(p, joins);
    if |rs| > 0 && joins(Last(Last(rs)), x) {
      RunsSplitBetween(p, joins, i);
    } else if i < |rs| - 1 {
      RunsSplitBetween(p, joins, i);
    }
  }

  /** Extending the last run keeps every run non-empty and the runs before
      it unchanged. */
  lemma ExtendLastRun<T>(rs: seq<seq<T>>, x: T)
    requires |rs| > 0 && forall k :: 0 <= k < |rs| ==> |rs[k]| > 0
    ensures var rs' := rs[..|rs| - 1] + [Last(rs) + [x]];
      && |rs'| > 0 && (forall k :: 0 <= k < |rs'| ==> |rs'[k]| > 0)
      && Last(rs') == Last(rs) + [x] && rs'[..|rs'| - 1] == rs[..|rs| - 1]
  {
    var init := rs[..|rs| - 1];
    var rs' := init + [Last(rs) + [x]];
    forall k | 0 <= k < |rs'| ensures |rs'[k]| > 0 {
      if k < |init| {
        assert rs'[k] == rs[k];
      }
    }
    assert rs'[..|rs'| - 1] == init;
  }

  /** Starting a new run keeps every run non-empty and the earlier runs
      unchanged. */
  lemma StartNewRun<T>(rs: seq<seq<T>>, x: T)
    requires forall k :: 0 <= k < |rs| ==> |rs[k]| > 0
    ensures var rs' := rs + [[x]];
      && |rs'| > 0 && (forall k :: 0 <= k < |rs'| ==> |rs'[k]| > 0)
      && Last(rs') == [x] && rs'[..|rs'| - 1] == rs
  {
    var rs' := rs + [[x]];
    forall k | 0 <= k < |rs'| ensures |rs'[k]| > 0 {
      if k < |rs| {
        assert rs'[k] == rs[k];
      }
    }
    assert rs'[..|rs'| - 1] == rs;
  }
}
