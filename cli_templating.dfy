/** The date templating of the pipeline configuration: every string in the
    loaded configuration, at any depth of lists and dicts, has each
    `{date}` replaced by today's date in ISO form. Today's date is a
    parameter. */
module CliTemplating {
  import opened Values

  // ---------------------------------------------------------------------
  // str.replace

  /** `s[i..]` starts with `pat`. */
  predicate StartsWithAt(s: string, pat: string, i: nat)
  {
    i + |pat| <= |s| && s[i..i + |pat|] == pat
  }

  /** `pat in s`. */
  predicate Contains(s: string, pat: string)
  {
    exists i :: 0 <= i <= |s| && StartsWithAt(s, pat, i)
  }

  /** Python's `s.replace(pat, rep)` for a non-empty `pat`: the occurrences
      of `pat` are replaced from left to right, without overlapping. */
  function ReplaceAll(s: string, pat: string, rep: string): string
    requires |pat| > 0
    decreases |s|
  {
    if |s| < |pat| then s
    else if s[..|pat|] == pat then rep + ReplaceAll(s[|pat|..], pat, rep)
    else [s[0]] + ReplaceAll(s[1..], pat, rep)
  }

  /** No character of `pat` occurs in `rep`. */
  predicate Disjoint(pat: string, rep: string)
  {
    forall c :: c in rep ==> c !in pat
  }

  /** A prefix of the result that holds no character of `rep` was copied
      from `s` unchanged. */
  lemma {:induction false} PrefixCopied(s: string, pat: string, rep: string, k: nat)
    requires |pat| > 0 && |rep| > 0
    requires k <= |ReplaceAll(s, pat, rep)|
    requires forall j :: 0 <= j < k ==> ReplaceAll(s, pat, rep)[j] !in rep
    ensures k <= |s| && s[..k] == ReplaceAll(s, pat, rep)[..k]
    decreases |s|
  {
    var r := ReplaceAll(s, pat, rep);
    if k == 0 || |s| < |pat| {
    } else if s[..|pat|] == pat {
      ReplacementFirst(rep, ReplaceAll(s[|pat|..], pat, rep));
    } else {
      var t := ReplaceAll(s[1..], pat, rep);
      assert r == [s[0]] + t;
      forall j | 0 <= j < k - 1 ensures t[j] !in rep {
        assert t[j] == r[j + 1];
      }
      PrefixCopied(s[1..], pat, rep, k - 1);
      assert s[..k] == [s[0]] + s[1..][..k - 1];
      assert r[..k] == [s[0]] + t[..k - 1];
    }
  }

  /** A replacement begins with the first character of `rep`. */
  lemma ReplacementFirst(rep: string, t: string)
    requires |rep| > 0
    ensures (rep + t)[0] in rep
  {
    assert (rep + t)[0] == rep[0];
  }

  /** No occurrence of `pat` starts inside a `rep` that shares no character
      with it. */
  lemma NoOccurrenceInReplacement(pat: string, rep: string, t: string, i: nat)
    requires |pat| > 0 && Disjoint(pat, rep) && i < |rep|
    ensures !StartsWithAt(rep + t, pat, i)
  {
    assert (rep + t)[i] == rep[i];
    assert rep[i] in rep;
    assert pat[0] in pat;
  }

  /** When `rep` is non-empty and shares no character with `pat`, the result
      holds no occurrence of `pat`. */
  lemma {:induction false} ReplaceAllRemoves(s: string, pat: string, rep: string)
    requires |pat| > 0 && |rep| > 0 && Disjoint(pat, rep)
    ensures !Contains(ReplaceAll(s, pat, rep), pat)
    decreases |s|
  {
    var r := ReplaceAll(s, pat, rep);
    if |s| < |pat| {
      assert forall i: nat :: !StartsWithAt(r, pat, i);
    } else if s[..|pat|] == pat {
      var t := ReplaceAll(s[|pat|..], pat, rep);
      ReplaceAllRemoves(s[|pat|..], pat, rep);
      assert r == rep + t;
      forall i: nat ensures !StartsWithAt(r, pat, i) {
        if i < |rep| {
          NoOccurrenceInReplacement(pat, rep, t, i);
        } else if i + |pat| <= |r| {
          assert t[i - |rep|..i - |rep| + |pat|] == r[i..i + |pat|];
          assert !StartsWithAt(t, pat, i - |rep|);
        }
      }
    } else {
      var t := ReplaceAll(s[1..], pat, rep);
      ReplaceAllRemoves(s[1..], pat, rep);
      assert r == [s[0]] + t;
      forall i: nat ensures !StartsWithAt(r, pat, i) {
        if i > 0 && i + |pat| <= |r| {
          assert t[i - 1..i - 1 + |pat|] == r[i..i + |pat|];
          assert !StartsWithAt(t, pat, i - 1);
        } else if i == 0 && StartsWithAt(r, pat, 0) {
          LeadingCopied(s, pat, rep, t);
        }
      }
    }
  }

  /** An occurrence at the start of `[s[0]] + t` was copied from `s`. */
  lemma LeadingCopied(s: string, pat: string, rep: string, t: string)
    requires |pat| > 0 && |rep| > 0 && Disjoint(pat, rep)
    requires |s| >= |pat|
    requires t == ReplaceAll(s[1..], pat, rep)
    requires StartsWithAt([s[0]] + t, pat, 0)
    ensures s[..|pat|] == pat
  {
    var r := [s[0]] + t;
    var k := |pat| - 1;
    forall j | 0 <= j < k ensures t[j] !in rep {
      assert t[j] == r[j + 1] == pat[j + 1];
      assert pat[j + 1] in pat;
    }
    PrefixCopied(s[1..], pat, rep, k);
    assert s[..|pat|] == [s[0]] + s[1..][..k];
    assert pat == [r[0]] + t[..k];
  }

  /** A string without an occurrence of `pat` is left unchanged. */
  lemma {:induction false} ReplaceAllAbsent(s: string, pat: string, rep: string)
    requires |pat| > 0 && !Contains(s, pat)
    ensures ReplaceAll(s, pat, rep) == s
    decreases |s|
  {
    if |s| >= |pat| {
      assert !StartsWithAt(s, pat, 0);
      assert s[..|pat|] != pat;
      forall i: nat ensures !StartsWithAt(s[1..], pat, i) {
        if i + |pat| <= |s[1..]| {
          assert s[1..][i..i + |pat|] == s[i + 1..i + 1 + |pat|];
          assert !StartsWithAt(s, pat, i + 1);
        }
      }
      ReplaceAllAbsent(s[1..], pat, rep);
      assert s == [s[0]] + s[1..];
    }
  }

  // ---------------------------------------------------------------------
  // _apply_date

  const DatePattern: string := "{date}"

  /** What `date.isoformat()` produces: a non-empty text of digits and
      dashes. */
  predicate IsIsoDateText(today: string)
  {
    |today| > 0 && forall c :: c in today ==> c in "0123456789-"
  }

  /** `_apply_date`: strings have `{date}` replaced, lists and dicts are
      rebuilt with every element transformed, anything else is returned as
      it is. */
  function ApplyDate(v: Value, today: string): (r: Value)
    ensures v.Str? ==> r == Str(ReplaceAll(v.s, DatePattern, today))
    ensures v.List? ==> (r.List? && |r.items| == |v.items|
      && forall i :: 0 <= i < |v.items| ==> r.items[i] == ApplyDate(v.items[i], today))
    ensures v.Dict? ==> (r.Dict? && r.entries.Keys == v.entries.Keys
      && forall k :: k in v.entries ==> r.entries[k] == ApplyDate(v.entries[k], today))
    ensures !v.Str? && !v.List? && !v.Dict? ==> r == v
    decreases v
  {
    match v
    case Str(s) => Str(ReplaceAll(s, DatePattern, today))
    case List(items) => List(seq(|items|, i requires 0 <= i < |items| => ApplyDate(items[i], today)))
    case Dict(entries) => Dict(map k | k in entries :: ApplyDate(entries[k], today))
    case _ => v
  }

  /** No string anywhere in `v` holds `{date}`. */
  predicate Templated(v: Value)
    decreases v
  {
    match v
    case Str(s) => !Contains(s, DatePattern)
    case List(items) => forall i :: 0 <= i < |items| ==> Templated(items[i])
    case Dict(entries) => forall k :: k in entries ==> Templated(entries[k])
    case _ => true
  }

  /** After templating no `{date}` remains anywhere. */
  lemma {:induction false} ApplyDateTemplates(v: Value, today: string)
    requires IsIsoDateText(today)
    ensures Templated(ApplyDate(v, today))
    decreases v
  {
    match v
    case Str(s) =>
      assert Disjoint(DatePattern, today) by {
        forall c | c in today ensures c !in DatePattern {
          assert c in "0123456789-";
        }
      }
      ReplaceAllRemoves(s, DatePattern, today);
    case List(items) =>
      forall i | 0 <= i < |items| ensures Templated(ApplyDate(v, today).items[i]) {
        ApplyDateTemplates(items[i], today);
      }
    case Dict(entries) =>
      forall k | k in entries ensures Templated(ApplyDate(v, today).entries[k]) {
        ApplyDateTemplates(entries[k], today);
      }
    case _ =>
  }

  /** A value without `{date}` is left unchanged by templating. */
  lemma {:induction false} ApplyDateFixes(v: Value, today: string)
    requires Templated(v)
    ensures ApplyDate(v, today) == v
    decreases v
  {
    match v
    case Str(s) =>
      ReplaceAllAbsent(s, DatePattern, today);
    case List(items) =>
      forall i | 0 <= i < |items| ensures ApplyDate(items[i], today) == items[i] {
        ApplyDateFixes(items[i], today);
      }
      assert ApplyDate(v, today).items == items;
    case Dict(entries) =>
      forall k | k in entries ensures ApplyDate(entries[k], today) == entries[k] {
        ApplyDateFixes(entries[k], today);
      }
      assert ApplyDate(v, today).entries == entries;
    case _ =>
  }

  /** Templating twice is templating once. */
  lemma ApplyDateIdempotent(v: Value, today: string)
    requires IsIsoDateText(today)
    ensures ApplyDate(ApplyDate(v, today), today) == ApplyDate(v, today)
  {
    ApplyDateTemplates(v, today);
    ApplyDateFixes(ApplyDate(v, today), today);
  }
}
