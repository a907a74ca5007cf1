/** Meter readings and channels as the detectors receive them. */
module Readings {
  import opened Seqs
  import opened DateUtils
  import opened StatsUtils

  /** A reading: its timestamp and the optional `P` and `power_kw` fields
      (`None` when the key is absent). */
  datatype Reading = Reading(ts: TsValue, p: Option<real>, powerKw: Option<real>)

  /** `r.get('P') or r.get('power_kw', 0)`: a missing or zero `P` falls back
      to `power_kw`, and a missing `power_kw` reads as 0. */
  function PowerOf(r: Reading): (power: real)
    ensures r.p.Some? && r.p.value != 0.0 ==> power == r.p.value
    ensures (r.p.None? || r.p.value == 0.0) && r.powerKw.Some? ==> power == r.powerKw.value
    ensures (r.p.None? || r.p.value == 0.0) && r.powerKw.None? ==> power == 0.0
  {
    if r.p.Some? && r.p.value != 0.0 then r.p.value
    else if r.powerKw.Some? then r.powerKw.value
    else 0.0
  }

  /** The hour-of-week bucket of a reading. */
  function HourKey(r: Reading): (k: int)
    ensures 0 <= k < 168
  {
    HourOfWeek(ParseTimestamp(r.ts))
  }

  /** `expectedIntervals` is optional in the channel dict. */
  datatype Channel = Channel(channelId: int, channelName: string, readings: seq<Reading>,
                             expectedIntervals: Option<int>)

  datatype BaselineData = BaselineData(channelId: int, readings: seq<Reading>)

  /** `next((b for b in baselines if b['channelId'] == id), None)`: the first
      baseline of the channel. */
  function FindBaseline(baselines: seq<BaselineData>, id: int): (r: Option<BaselineData>)
    ensures r.None? <==> forall i :: 0 <= i < |baselines| ==> baselines[i].channelId != id
    ensures r.Some? ==> r.value.channelId == id && exists i :: (
      && 0 <= i < |baselines| && baselines[i] == r.value
      && forall j :: 0 <= j < i ==> baselines[j].channelId != id)
  {
    if |baselines| == 0 then None
    else if baselines[0].channelId == id then Some(baselines[0])
    else
      var r := FindBaseline(baselines[1..], id);
      assert forall i :: 1 <= i < |baselines| ==> baselines[i] == baselines[1..][i - 1];
      r
  }

  /** The baseline readings a channel is analysed against, or `None` when
      the channel is skipped (no baseline, or one without readings). */
  function UsableBaseline(baselines: seq<BaselineData>, id: int): (r: Option<seq<Reading>>)
    ensures r.Some? <==> FindBaseline(baselines, id).Some? && |FindBaseline(baselines, id).value.readings| > 0
    ensures r.Some? ==> r.value == FindBaseline(baselines, id).value.readings
  {
    var b := FindBaseline(baselines, id);
    if b.None? || |b.value.readings| == 0 then None else Some(b.value.readings)
  }

  /** The powers of the baseline readings in hour-of-week bucket `k`, in
      input order. */
  function BucketPowers(baseline: seq<Reading>, k: int): seq<real>
  {
    Map(Filter(baseline, KeyIs(HourKey, k)), PowerOf)
  }

  /** A bucket of `group_by` holds at least one reading, so `len(powers) > 0`
      always holds. */
  lemma BucketNonEmpty(baseline: seq<Reading>, k: int)
    requires k in DistinctKeys(baseline, HourKey)
    ensures |BucketPowers(baseline, k)| > 0
  {
    var r :| r in baseline && HourKey(r) == k;
    FilterMembership(baseline, KeyIs(HourKey, k), r);
  }

  /** The bucket at position `j` of the `group_by` key order: its powers are
      the bucket's powers, and there is at least one. */
  lemma GroupedBucket(baseline: seq<Reading>, grouped: map<int, seq<Reading>>, order: seq<int>, j: nat)
    requires Grouped(grouped, order, baseline, HourKey) && j < |order|
    ensures order[j] in grouped && Map(grouped[order[j]], PowerOf) == BucketPowers(baseline, order[j])
    ensures |BucketPowers(baseline, order[j])| > 0
  {
    var key := order[j];
    assert key in grouped && Map(grouped[key], PowerOf) == BucketPowers(baseline, key) by {
      assert key in order;
    }
    BucketNonEmpty(baseline, key);
  }
}
