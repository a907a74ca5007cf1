/** Anomaly detection: a per-hour-of-week profile of the baseline readings,
    readings above the profile's IQR threshold, consecutive anomalous
    readings grouped into events, and the site-wide summary and timeline. */
module AnomalyDetection {
  import opened Seqs
  import opened StableSort
  import opened DateUtils
  import opened StatsUtils
  import opened ReportConfig
  import opened Readings
  import opened EventRuns

  // ---------------------------------------------------------------------
  // build_baseline_profile

  /** The `**stats, **iqr` entry of one hour, with its threshold. */
  datatype ProfileEntry = ProfileEntry(stats: Stats, iqr: Iqr, upperThreshold: real)

  /** The entry of one hour; with a non-negative multiplier its threshold
      `q3 + iqrMultiplier * iqr` is at least the median. */
  function EntryOf(stats: Stats, iqr: Iqr, iqrMultiplier: real): (e: ProfileEntry)
    requires stats.median <= iqr.q3 && iqr.iqr >= 0.0
    ensures e.stats == stats && e.iqr == iqr
    ensures e.upperThreshold == e.iqr.q3 + iqrMultiplier * e.iqr.iqr
    ensures iqrMultiplier >= 0.0 ==> e.stats.median <= e.upperThreshold
  {
    ThresholdAbove(stats.median, iqr.q3, iqr.iqr, iqrMultiplier);
    ProfileEntry(stats, iqr, iqr.q3 + iqrMultiplier * iqr.iqr)
  }

  /** The `**stats, **iqr` entry of the powers of one hour. */
  function ProfileEntryOf(powers: seq<real>, iqrMultiplier: real): (e: ProfileEntry)
    ensures e.stats == CalculateStats(powers) && e.iqr == CalculateIqr(powers)
    ensures iqrMultiplier >= 0.0 ==> e.stats.median <= e.upperThreshold
  {
    MedianBelowQ3(powers);
    EntryOf(CalculateStats(powers), CalculateIqr(powers), iqrMultiplier)
  }

  /** The threshold of an hour is `q3 + iqrMultiplier * (q3 - q1)` of its
      powers. */
  lemma ProfileEntryThreshold(powers: seq<real>, iqrMultiplier: real)
    ensures var iqr := CalculateIqr(powers);
      ProfileEntryOf(powers, iqrMultiplier).upperThreshold == iqr.q3 + iqrMultiplier * (iqr.q3 - iqr.q1)
  {
    MedianBelowQ3(powers);
    EntryThreshold(CalculateStats(powers), CalculateIqr(powers), iqrMultiplier);
  }

  lemma EntryThreshold(stats: Stats, iqr: Iqr, iqrMultiplier: real)
    requires stats.median <= iqr.q3 && iqr.iqr >= 0.0 && iqr.iqr == iqr.q3 - iqr.q1
    ensures EntryOf(stats, iqr, iqrMultiplier).upperThreshold == iqr.q3 + iqrMultiplier * (iqr.q3 - iqr.q1)
  {
  }

  lemma MedianBelowQ3(powers: seq<real>)
    ensures CalculateStats(powers).median <= CalculateIqr(powers).q3
  {
    if |powers| > 0 {
      PercentileMonotone(powers, 50.0, 75.0);
    }
  }

  lemma ThresholdAbove(median: real, q3: real, iqr: real, iqrMultiplier: real)
    requires median <= q3 && iqr >= 0.0
    ensures iqrMultiplier >= 0.0 ==> median <= q3 + iqrMultiplier * iqr
  {
    FenceSpread(iqr, iqrMultiplier);
  }

  /** The entries of the hours `keys`. */
  function ProfileOver(baseline: seq<Reading>, iqrMultiplier: real, keys: seq<int>): map<int, ProfileEntry>
  {
    map k | k in keys :: ProfileEntryOf(BucketPowers(baseline, k), iqrMultiplier)
  }

  lemma ProfileOverSnoc(baseline: seq<Reading>, iqrMultiplier: real, keys: seq<int>, k: int)
    ensures ProfileOver(baseline, iqrMultiplier, keys + [k])
         == ProfileOver(baseline, iqrMultiplier, keys)[k := ProfileEntryOf(BucketPowers(baseline, k), iqrMultiplier)]
  {
  }

  /** The profile: one entry for every hour of week that has a baseline
      reading, built from that hour's powers. */
  function Profile(baseline: seq<Reading>, iqrMultiplier: real): (p: map<int, ProfileEntry>)
    ensures forall k :: k in p <==> k in DistinctKeys(baseline, HourKey)
  {
    ProfileOver(baseline, iqrMultiplier, DistinctKeys(baseline, HourKey))
  }

  /** The profile has an entry for exactly the hours of week at which some
      baseline reading lies, all of them in `0..167`. */
  lemma ProfileKeys(baseline: seq<Reading>, iqrMultiplier: real, k: int)
    ensures k in Profile(baseline, iqrMultiplier) <==> exists r :: r in baseline && HourKey(r) == k
    ensures k in Profile(baseline, iqrMultiplier) ==> 0 <= k < 168
  {
    if k in Profile(baseline, iqrMultiplier) {
      var r :| r in baseline && HourKey(r) == k;
    }
  }

  /** One step of the loop over the `group_by` buckets. */
  lemma ProfileStep(baseline: seq<Reading>, iqrMultiplier: real, grouped: map<int, seq<Reading>>, order: seq<int>, j: nat)
    requires Grouped(grouped, order, baseline, HourKey) && j < |order|
    ensures order[j] in grouped
    ensures var powers := Map(grouped[order[j]], PowerOf);
      && |powers| > 0
      && ProfileOver(baseline, iqrMultiplier, order[..j + 1])
         == ProfileOver(baseline, iqrMultiplier, order[..j])[order[j] := ProfileEntryOf(powers, iqrMultiplier)]
  {
    var key := order[j];
    GroupedBucket(baseline, grouped, order, j);
    assert order[..j + 1] == order[..j] + [key];
    ProfileOverSnoc(baseline, iqrMultiplier, order[..j], key);
  }

  method BuildBaselineProfile(baseline: seq<Reading>, config: Config) returns (profile: map<int, ProfileEntry>)
    ensures profile == Profile(baseline, config.anomaly.iqrMultiplier)
  {
    var m := config.anomaly.iqrMultiplier;
    var grouped, order := GroupBy(baseline, HourKey);
    profile := map[];
    for j := 0 to |order|
      invariant profile == ProfileOver(baseline, m, order[..j])
    {
      var key := order[j];
      var powers := Map(grouped[key], PowerOf);
      ProfileStep(baseline, m, grouped, order, j);
      if |powers| > 0 {
        profile := profile[key := ProfileEntryOf(powers, m)];
      }
    }
    assert order[..|order|] == order;
  }

  // ---------------------------------------------------------------------
  // Flagging readings

  /** An anomalous reading; `zScore` is not part of this model. */
  datatype AnomalousReading = AnomalousReading(
    ts: TsValue, power: real, baselineMedian: real, threshold: real,
    excessKw: real, excessKwh: real, isBusinessHours: bool)

  /** A reading is anomalous when its hour has a profile entry and its power
      is above the entry's threshold. */
  predicate IsAnomalous(profile: map<int, ProfileEntry>, r: Reading)
  {
    HourKey(r) in profile && PowerOf(r) > profile[HourKey(r)].upperThreshold
  }

  function ToAnomalous(profile: map<int, ProfileEntry>, intervalHours: real, config: Config, r: Reading): (a: AnomalousReading)
    requires HasAllDays(config) && HourKey(r) in profile
    ensures a.ts == r.ts && a.power == PowerOf(r)
    ensures a.baselineMedian == profile[HourKey(r)].stats.median
    ensures a.threshold == profile[HourKey(r)].upperThreshold
    ensures a.excessKw == a.power - a.baselineMedian && a.excessKwh == a.excessKw * intervalHours
    ensures a.isBusinessHours == IsBusinessHours(ParseTimestamp(r.ts), config)
  {
    var e := profile[HourKey(r)];
    var excess := PowerOf(r) - e.stats.median;
    AnomalousReading(r.ts, PowerOf(r), e.stats.median, e.upperThreshold, excess, excess * intervalHours,
                     IsBusinessHours(ParseTimestamp(r.ts), config))
  }

  /** The anomalous readings of `readings`, in order. */
  function Flagged(readings: seq<Reading>, profile: map<int, ProfileEntry>, intervalHours: real, config: Config): (r: seq<AnomalousReading>)
    requires HasAllDays(config)
    ensures |r| <= |readings|
  {
    if |readings| == 0 then []
    else
      var x := Last(readings);
      Flagged(readings[..|readings| - 1], profile, intervalHours, config)
        + (if IsAnomalous(profile, x) then [ToAnomalous(profile, intervalHours, config, x)] else [])
  }

  /** A reading is reported exactly when it is anomalous, with its power
      above the threshold; a reading whose hour has no entry is never
      reported. */
  lemma {:induction false} FlaggedMembership(readings: seq<Reading>, profile: map<int, ProfileEntry>,
                                            intervalHours: real, config: Config, a: AnomalousReading)
    requires HasAllDays(config)
    ensures a in Flagged(readings, profile, intervalHours, config) <==>
      exists r :: r in readings && IsAnomalous(profile, r) && a == ToAnomalous(profile, intervalHours, config, r)
    ensures a in Flagged(readings, profile, intervalHours, config) ==> a.power > a.threshold
  {
    if |readings| > 0 {
      var p, x := readings[..|readings| - 1], Last(readings);
      assert readings == p + [x];
      FlaggedMembership(p, profile, intervalHours, config, a);
      if a in Flagged(p, profile, intervalHours, config) {
        var r :| r in p && IsAnomalous(profile, r) && a == ToAnomalous(profile, intervalHours, config, r);
        assert r in readings;
      }
    }
  }

  /** A flagged reading lies above the hour's median, so its excess is
      positive when the IQR multiplier is not negative. */
  lemma FlaggedExcessPositive(baseline: seq<Reading>, iqrMultiplier: real, intervalHours: real, config: Config, r: Reading)
    requires HasAllDays(config) && iqrMultiplier >= 0.0
    requires IsAnomalous(Profile(baseline, iqrMultiplier), r)
    ensures ToAnomalous(Profile(baseline, iqrMultiplier), intervalHours, config, r).excessKw > 0.0
  {
  }

  /** Five baseline readings on a Wednesday between 02:00 and 02:40 UTC,
      hour of week 50, with powers 10, 10, 10, 10 and 20 kW. */
  const QuietHourBaseline: seq<Reading> := [
    Reading(Epoch(525600), Some(10.0), None), Reading(Epoch(526200), Some(10.0), None),
    Reading(Epoch(526800), Some(10.0), None), Reading(Epoch(527400), Some(10.0), None),
    Reading(Epoch(528000), Some(20.0), None)]

  /** A 15 kW report reading one week later, in the same hour of week. */
  const BusyReading: Reading := Reading(Epoch(1130400), Some(15.0), None)

  lemma QuietHourKeys()
    ensures forall r :: r in QuietHourBaseline ==> HourKey(r) == 50
    ensures HourKey(BusyReading) == 50
  {
    assert 525600 / 86400 == 6 && 525600 % 86400 == 7200;
    assert 526200 / 86400 == 6 && 526200 % 86400 == 7800;
    assert 526800 / 86400 == 6 && 526800 % 86400 == 8400;
    assert 527400 / 86400 == 6 && 527400 % 86400 == 9000;
    assert 528000 / 86400 == 6 && 528000 % 86400 == 9600;
    assert 1130400 / 86400 == 13 && 1130400 % 86400 == 7200;
  }

  /** The quartiles of 10, 10, 10, 10, 20 sit at ranks 1 and 3, both 10. */
  lemma QuietHourQuartiles()
    ensures CalculateIqr([10.0, 10.0, 10.0, 10.0, 20.0]) == Iqr(10.0, 10.0, 0.0)
  {
    var v := [10.0, 10.0, 10.0, 10.0, 20.0];
    assert Ascending(v);
    assert Percentile(v, 25.0) == 10.0 by {
      assert Rank(25.0, 5) == 1.0;
      PercentileBetween(v, 25.0, 1, 0.0);
    }
    assert Percentile(v, 75.0) == 10.0 by {
      assert Rank(75.0, 5) == 3.0;
      PercentileBetween(v, 75.0, 3, 0.0);
    }
  }

  /** Every baseline reading falls in hour 50, so its bucket holds all five
      powers. */
  lemma QuietHourBucket()
    ensures 50 in DistinctKeys(QuietHourBaseline, HourKey)
    ensures BucketPowers(QuietHourBaseline, 50) == [10.0, 10.0, 10.0, 10.0, 20.0]
  {
    var b := QuietHourBaseline;
    QuietHourKeys();
    assert b[0] in b;
    FilterAll(b, KeyIs(HourKey, 50));
    PowersOfFive(b, [10.0, 10.0, 10.0, 10.0, 20.0]);
  }

  /** Five readings whose powers are, in order, the five values of `v`. */
  lemma PowersOfFive(b: seq<Reading>, v: seq<real>)
    requires |b| == 5 && |v| == 5
    requires forall i :: 0 <= i < 5 ==> PowerOf(b[i]) == v[i]
    ensures Map(b, PowerOf) == v
  {
  }

  /** A baseline hour whose powers are 10, 10, 10, 10 and 20 has, with an
      IQR multiplier of 3, q1 = q3 = 10, an IQR of 0 and a threshold of
      10 kW. */
  lemma QuietHourEntryOf(baseline: seq<Reading>, k: int)
    requires k in DistinctKeys(baseline, HourKey)
    requires BucketPowers(baseline, k) == [10.0, 10.0, 10.0, 10.0, 20.0]
    ensures k in Profile(baseline, 3.0)
    ensures Profile(baseline, 3.0)[k].iqr == Iqr(10.0, 10.0, 0.0)
    ensures Profile(baseline, 3.0)[k].upperThreshold == 10.0
  {
    QuietHourPowers();
    ProfileAt(baseline, 3.0, k);
  }

  /** The entry of an hour with baseline readings is built from its powers. */
  lemma ProfileAt(baseline: seq<Reading>, iqrMultiplier: real, k: int)
    requires k in DistinctKeys(baseline, HourKey)
    ensures k in Profile(baseline, iqrMultiplier)
    ensures Profile(baseline, iqrMultiplier)[k] == ProfileEntryOf(BucketPowers(baseline, k), iqrMultiplier)
  {
  }

  lemma QuietHourPowers()
    ensures ProfileEntryOf([10.0, 10.0, 10.0, 10.0, 20.0], 3.0).iqr == Iqr(10.0, 10.0, 0.0)
    ensures ProfileEntryOf([10.0, 10.0, 10.0, 10.0, 20.0], 3.0).upperThreshold == 10.0
  {
    QuietHourQuartiles();
    ProfileEntryThreshold([10.0, 10.0, 10.0, 10.0, 20.0], 3.0);
  }

  lemma QuietHourEntry()
    ensures 50 in Profile(QuietHourBaseline, 3.0)
    ensures Profile(QuietHourBaseline, 3.0)[50].iqr == Iqr(10.0, 10.0, 0.0)
    ensures Profile(QuietHourBaseline, 3.0)[50].upperThreshold == 10.0
  {
    QuietHourBucket();
    QuietHourEntryOf(QuietHourBaseline, 50);
  }

  /** A reading above its hour's threshold is flagged. */
  lemma FlaggedAboveThreshold(readings: seq<Reading>, profile: map<int, ProfileEntry>,
                              intervalHours: real, config: Config, r: Reading)
    requires HasAllDays(config) && r in readings && IsAnomalous(profile, r)
    ensures ToAnomalous(profile, intervalHours, config, r) in Flagged(readings, profile, intervalHours, config)
  {
    FlaggedMembership(readings, profile, intervalHours, config, ToAnomalous(profile, intervalHours, config, r));
  }

  /** The 15 kW reading lies above that threshold. */
  lemma QuietHourBusyReading()
    ensures IsAnomalous(Profile(QuietHourBaseline, 3.0), BusyReading)
  {
    QuietHourEntry();
    QuietHourKeys();
  }

  /** So any report holding the 15 kW reading reports it as an anomaly. */
  lemma QuietHourAnomaly(config: Config, report: seq<Reading>)
    requires HasAllDays(config) && BusyReading in report
    ensures var profile := Profile(QuietHourBaseline, 3.0);
      && IsAnomalous(profile, BusyReading)
      && ToAnomalous(profile, 0.25, config, BusyReading) in Flagged(report, profile, 0.25, config)
  {
    QuietHourBusyReading();
    FlaggedAboveThreshold(report, Profile(QuietHourBaseline, 3.0), 0.25, config, BusyReading);
  }

  // ---------------------------------------------------------------------
  // group_consecutive_anomalies

  /** What the event is taken to fall in, from its first reading. */
  datatype Context = BusinessHours | AfterHours

  /** An emitted event; `readingCount` is the `"{n} intervals"` duration. */
  datatype AnomalyEvent = AnomalyEvent(
    start: TsValue, end: TsValue, peakPower: real, totalExcessKwh: real,
    avgExcessKw: real, readingCount: nat, context: Context)

  /** The `current_event` dict while it is still collecting readings. */
  datatype OpenEvent = OpenEvent(start: TsValue, end: TsValue, readings: seq<AnomalousReading>,
                                 peakPower: real, totalExcessKwh: real)

  function Instant(ts: TsValue): int
  {
    ParseTimestamp(ts).utc
  }

  /** A reading extends the current event when it comes less than two hours
      after the event's last reading. */
  function AnomalyJoins(): (AnomalousReading, AnomalousReading) -> bool
  {
    (prev: AnomalousReading, curr: AnomalousReading) => Instant(curr.ts) - Instant(prev.ts) < 7200
  }

  function Powers(run: seq<AnomalousReading>): seq<real>
  {
    Map(run, (a: AnomalousReading) => a.power)
  }

  function Excesses(run: seq<AnomalousReading>): seq<real>
  {
    Map(run, (a: AnomalousReading) => a.excessKwh)
  }

  /** The open event that has collected exactly `run`. */
  function OpenOf(run: seq<AnomalousReading>): (o: OpenEvent)
    requires |run| > 0
  {
    OpenEvent(run[0].ts, Last(run).ts, run, MaxOf(Powers(run)), Sum(Excesses(run)))
  }

  /** The average excess power of `count` quarter-hour intervals whose
      excess energy totals `totalKwh`; the 0.25 h interval is fixed. */
  function AverageKw(totalKwh: real, count: nat): real
    requires count > 0
  {
    totalKwh / (count as real * 0.25)
  }

  /** The emitted form of an open event. */
  function Close(o: OpenEvent): (e: AnomalyEvent)
    requires |o.readings| > 0
  {
    AnomalyEvent(o.start, o.end, o.peakPower, o.totalExcessKwh,
                 AverageKw(o.totalExcessKwh, |o.readings|), |o.readings|,
                 if o.readings[0].isBusinessHours then BusinessHours else AfterHours)
  }

  /** The event made of the readings `run`. */
  function EventOf(run: seq<AnomalousReading>): (e: AnomalyEvent)
    requires |run| > 0
    ensures e.start == run[0].ts && e.end == Last(run).ts
    ensures e.readingCount == |run|
    ensures e.peakPower in Powers(run) && forall p :: p in Powers(run) ==> p <= e.peakPower
    ensures e.totalExcessKwh == Sum(Excesses(run))
    ensures e.avgExcessKw == AverageKw(e.totalExcessKwh, |run|)
    ensures e.context == if run[0].isBusinessHours then BusinessHours else AfterHours
  {
    Close(OpenOf(run))
  }

  /** The events emitted for `runs`: those with at least `minConsecutive`
      readings. */
  function Emitted(runs: seq<seq<AnomalousReading>>, minConsecutive: real): (r: seq<AnomalyEvent>)
    requires forall i :: 0 <= i < |runs| ==> |runs[i]| > 0
    ensures |r| <= |runs|
  {
    if |runs| == 0 then []
    else
      Emitted(runs[..|runs| - 1], minConsecutive)
        + (if |Last(runs)| as real >= minConsecutive then [EventOf(Last(runs))] else [])
  }

  /** The events `group_consecutive_anomalies` returns. */
  function AnomalyEvents(readings: seq<AnomalousReading>, minConsecutive: real): seq<AnomalyEvent>
  {
    Emitted(Runs(readings, AnomalyJoins()), minConsecutive)
  }

  /** Consecutive readings of one run are less than two hours apart, and a
      run starts two hours or more after the previous run's last reading. */
  lemma AnomalyRunGaps(readings: seq<AnomalousReading>, i: int, k: int)
    requires 0 <= i < |Runs(readings, AnomalyJoins())|
    ensures var rs := Runs(readings, AnomalyJoins());
      && (0 <= k < |rs[i]| - 1 ==> Instant(rs[i][k + 1].ts) - Instant(rs[i][k].ts) < 7200)
      && (i < |rs| - 1 ==> Instant(rs[i + 1][0].ts) - Instant(Last(rs[i]).ts) >= 7200)
  {
    var rs := Runs(readings, AnomalyJoins());
    if 0 <= k < |rs[i]| - 1 {
      RunsJoinWithin(readings, AnomalyJoins(), i, k);
    }
    if i < |rs| - 1 {
      RunsSplitBetween(readings, AnomalyJoins(), i);
    }
  }

  /** The loop state of `group_consecutive_anomalies` after the readings
      `p`: the open event holds the last run, and the runs before it have
      been emitted or dropped. */
  ghost predicate GroupState(p: seq<AnomalousReading>, current: Option<OpenEvent>, events: seq<AnomalyEvent>,
                             minConsecutive: real)
  {
    if |p| == 0 then current.None? && events == []
    else
      var rs := Runs(p, AnomalyJoins());
      current == Some(OpenOf(Last(rs))) && events == Emitted(rs[..|rs| - 1], minConsecutive)
  }

  method GroupConsecutiveAnomalies(readings: seq<AnomalousReading>, minConsecutive: real)
    returns (events: seq<AnomalyEvent>)
    ensures events == AnomalyEvents(readings, minConsecutive)
  {
    if |readings| == 0 {
      return [];
    }
    events := [];
    var current: Option<OpenEvent> := None;
    for i := 0 to |readings|
      invariant GroupState(readings[..i], current, events, minConsecutive)
    {
      var reading := readings[i];
      if current.None? {
        StartStep(readings, i, events, minConsecutive);
        current := Some(OpenEvent(reading.ts, reading.ts, [reading], reading.power, reading.excessKwh));
      } else {
        var ev := current.value;
        var gap := Instant(reading.ts) - Instant(ev.end);
        if gap < 7200 {
          ExtendStep(readings, i, ev, events, minConsecutive);
          current := Some(Extend(ev, reading));
        } else {
          SplitStep(readings, i, ev, events, minConsecutive);
          if |ev.readings| as real >= minConsecutive {
            events := events + [Close(ev)];
          }
          current := Some(OpenEvent(reading.ts, reading.ts, [reading], reading.power, reading.excessKwh));
        }
      }
    }
    assert readings[..|readings|] == readings;
    FinalStep(readings, current, events, minConsecutive);
    if current.Some? && |current.value.readings| as real >= minConsecutive {
      events := events + [Close(current.value)];
    }
  }

  lemma OpenOfOne(x: AnomalousReading)
    ensures OpenOf([x]) == OpenEvent(x.ts, x.ts, [x], x.power, x.excessKwh)
  {
    assert Powers([x]) == [x.power];
    assert Excesses([x]) == [x.excessKwh];
    assert Sum([x.excessKwh]) == Sum([]) + x.excessKwh by {
      assert [x.excessKwh][..0] == [];
    }
  }

  /** Adding a reading to the open event keeps the running maximum and
      total in step with the readings collected. */
  lemma OpenOfSnoc(run: seq<AnomalousReading>, x: AnomalousReading)
    requires |run| > 0
    ensures var o := OpenOf(run);
      OpenOf(run + [x])
      == o.(end := x.ts, readings := run + [x],
            peakPower := if x.power > o.peakPower then x.power else o.peakPower,
            totalExcessKwh := o.totalExcessKwh + x.excessKwh)
  {
    MapSnoc(run, x, (a: AnomalousReading) => a.power);
    MapSnoc(run, x, (a: AnomalousReading) => a.excessKwh);
    SumSnoc(Excesses(run), x.excessKwh);
    var ps := Powers(run) + [x.power];
    assert ps[..|ps| - 1] == Powers(run);
  }

  lemma EmittedSnoc(runs: seq<seq<AnomalousReading>>, run: seq<AnomalousReading>, minConsecutive: real)
    requires forall i :: 0 <= i < |runs| ==> |runs[i]| > 0
    requires |run| > 0
    ensures Emitted(runs + [run], minConsecutive)
         == Emitted(runs, minConsecutive) + (if |run| as real >= minConsecutive then [EventOf(run)] else [])
  {
    assert (runs + [run])[..|runs|] == runs;
  }

  lemma StartStep(readings: seq<AnomalousReading>, i: nat, events: seq<AnomalyEvent>, minConsecutive: real)
    requires i < |readings| && GroupState(readings[..i], None, events, minConsecutive)
    ensures var x := readings[i];
      GroupState(readings[..i + 1], Some(OpenEvent(x.ts, x.ts, [x], x.power, x.excessKwh)), events, minConsecutive)
  {
    var p, x := readings[..i], readings[i];
    assert readings[..i + 1] == p + [x];
    assert p == [];
    RunsSnoc(p, x, AnomalyJoins());
    assert p + [x] == [x];
    OpenOfOne(x);
  }

  /** The open event after `x` joins it: its end moves to `x`, `x` is
      appended, the peak is `max(peak, power)` and the excess is added. */
  function Extend(ev: OpenEvent, x: AnomalousReading): OpenEvent
  {
    ev.(end := x.ts, readings := ev.readings + [x],
        peakPower := if x.power > ev.peakPower then x.power else ev.peakPower,
        totalExcessKwh := ev.totalExcessKwh + x.excessKwh)
  }

  ghost predicate RunsState(rs: seq<seq<AnomalousReading>>, current: OpenEvent, events: seq<AnomalyEvent>,
                            minConsecutive: real)
  {
    && |rs| > 0 && (forall k :: 0 <= k < |rs| ==> |rs[k]| > 0)
    && current == OpenOf(Last(rs)) && events == Emitted(rs[..|rs| - 1], minConsecutive)
  }

  lemma GroupStateRuns(p: seq<AnomalousReading>, current: Option<OpenEvent>, events: seq<AnomalyEvent>,
                       minConsecutive: real)
    requires |p| > 0
    ensures GroupState(p, current, events, minConsecutive)
        <==> current.Some? && RunsState(Runs(p, AnomalyJoins()), current.value, events, minConsecutive)
  {
  }

  lemma ExtendRuns(rs: seq<seq<AnomalousReading>>, x: AnomalousReading, ev: OpenEvent, events: seq<AnomalyEvent>,
                   minConsecutive: real)
    requires RunsState(rs, ev, events, minConsecutive)
    ensures RunsState(rs[..|rs| - 1] + [Last(rs) + [x]], Extend(ev, x), events, minConsecutive)
  {
    ExtendLastRun(rs, x);
    OpenOfSnoc(Last(rs), x);
  }

  lemma SplitRuns(rs: seq<seq<AnomalousReading>>, x: AnomalousReading, ev: OpenEvent, events: seq<AnomalyEvent>,
                  minConsecutive: real)
    requires RunsState(rs, ev, events, minConsecutive)
    ensures |ev.readings| > 0
    ensures RunsState(rs + [[x]], OpenEvent(x.ts, x.ts, [x], x.power, x.excessKwh),
                      events + (if |ev.readings| as real >= minConsecutive then [Close(ev)] else []), minConsecutive)
  {
    var init := rs[..|rs| - 1];
    StartNewRun(rs, x);
    assert Emitted(rs, minConsecutive)
        == Emitted(init, minConsecutive) + (if |Last(rs)| as real >= minConsecutive then [EventOf(Last(rs))] else []);
    OpenOfOne(x);
  }

  lemma ExtendStep(readings: seq<AnomalousReading>, i: nat, ev: OpenEvent, events: seq<AnomalyEvent>,
                   minConsecutive: real)
    requires i < |readings| && GroupState(readings[..i], Some(ev), events, minConsecutive)
    requires Instant(readings[i].ts) - Instant(ev.end) < 7200
    ensures GroupState(readings[..i + 1], Some(Extend(ev, readings[i])), events, minConsecutive)
  {
    var p, x := readings[..i], readings[i];
    assert readings[..i + 1] == p + [x];
    var rs := Runs(p, AnomalyJoins());
    GroupStateRuns(p, Some(ev), events, minConsecutive);
    GroupStateRuns(p + [x], Some(Extend(ev, x)), events, minConsecutive);
    assert Runs(p + [x], AnomalyJoins()) == rs[..|rs| - 1] + [Last(rs) + [x]] by {
      RunsSnoc(p, x, AnomalyJoins());
      assert AnomalyJoins()(Last(Last(rs)), x);
    }
    ExtendRuns(rs, x, ev, events, minConsecutive);
  }

  lemma SplitStep(readings: seq<AnomalousReading>, i: nat, ev: OpenEvent, events: seq<AnomalyEvent>,
                  minConsecutive: real)
    requires i < |readings| && GroupState(readings[..i], Some(ev), events, minConsecutive)
    requires !(Instant(readings[i].ts) - Instant(ev.end) < 7200)
    ensures |ev.readings| > 0
    ensures var x := readings[i];
      GroupState(readings[..i + 1], Some(OpenEvent(x.ts, x.ts, [x], x.power, x.excessKwh)),
                 events + (if |ev.readings| as real >= minConsecutive then [Close(ev)] else []), minConsecutive)
  {
    var p, x := readings[..i], readings[i];
    assert readings[..i + 1] == p + [x];
    var rs := Runs(p, AnomalyJoins());
    var events' := events + (if |ev.readings| as real >= minConsecutive then [Close(ev)] else []);
    GroupStateRuns(p, Some(ev), events, minConsecutive);
    GroupStateRuns(p + [x], Some(OpenEvent(x.ts, x.ts, [x], x.power, x.excessKwh)), events', minConsecutive);
    assert Runs(p + [x], AnomalyJoins()) == rs + [[x]] by {
      RunsSnoc(p, x, AnomalyJoins());
    }
    SplitRuns(rs, x, ev, events, minConsecutive);
  }

  lemma FinalStep(readings: seq<AnomalousReading>, current: Option<OpenEvent>, events: seq<AnomalyEvent>,
                  minConsecutive: real)
    requires |readings| > 0 && GroupState(readings, current, events, minConsecutive)
    ensures current.Some? && |current.value.readings| > 0
    ensures AnomalyEvents(readings, minConsecutive)
      == events + (if |current.value.readings| as real >= minConsecutive then [Close(current.value)] else [])
  {
    var rs := Runs(readings, AnomalyJoins());
    assert rs == rs[..|rs| - 1] + [Last(rs)];
    EmittedSnoc(rs[..|rs| - 1], Last(rs), minConsecutive);
  }

  /** Every emitted event is the event of one run of the grouping, and that
      run has at least `minConsecutive` readings. */
  lemma {:induction false} EmittedFromRuns(runs: seq<seq<AnomalousReading>>, minConsecutive: real, e: AnomalyEvent)
    requires forall i :: 0 <= i < |runs| ==> |runs[i]| > 0
    requires e in Emitted(runs, minConsecutive)
    ensures exists i :: 0 <= i < |runs| && |runs[i]| as real >= minConsecutive && e == EventOf(runs[i])
  {
    var p := runs[..|runs| - 1];
    if e in Emitted(p, minConsecutive) {
      EmittedFromRuns(p, minConsecutive, e);
      var i :| 0 <= i < |p| && |p[i]| as real >= minConsecutive && e == EventOf(p[i]);
      assert runs[i] == p[i];
    } else {
      assert e == EventOf(runs[|runs| - 1]);
    }
  }

  /** Each anomaly event has at least `minConsecutive` readings, its peak is
      the maximum power of its readings and its total their summed excess. */
  lemma AnomalyEventFacts(readings: seq<AnomalousReading>, minConsecutive: real, e: AnomalyEvent)
    requires e in AnomalyEvents(readings, minConsecutive)
    ensures e.readingCount as real >= minConsecutive
    ensures exists run :: run in Runs(readings, AnomalyJoins()) && |run| > 0 && e == EventOf(run)
  {
    var rs := Runs(readings, AnomalyJoins());
    EmittedFromRuns(rs, minConsecutive, e);
    var i :| 0 <= i < |rs| && |rs[i]| as real >= minConsecutive && e == EventOf(rs[i]);
    assert rs[i] in rs;
  }

  // ---------------------------------------------------------------------
  // detect_anomalies

  datatype AnomalyResult = AnomalyResult(channelId: int, channelName: string, anomalyCount: nat,
                                         events: seq<AnomalyEvent>)

  function Significant(minExcessKwh: real): AnomalyEvent -> bool
  {
    (e: AnomalyEvent) => e.totalExcessKwh >= minExcessKwh
  }

  /** What `detect_anomalies` returns for one channel. */
  function ChannelAnomalies(channel: Channel, baseline: seq<Reading>, config: Config, intervalSeconds: int): (r: AnomalyResult)
    requires HasAllDays(config)
  {
    var profile := Profile(baseline, config.anomaly.iqrMultiplier);
    var flagged := Flagged(channel.readings, profile, GetIntervalHours(intervalSeconds), config);
    var events := Filter(AnomalyEvents(flagged, config.anomaly.minConsecutiveIntervals),
                         Significant(config.anomaly.minExcessKwh));
    AnomalyResult(channel.channelId, channel.channelName, |events|, events)
  }

  /** The count is the number of events kept, each of which has at least
      `minExcessKwh` excess and `minConsecutiveIntervals` readings. */
  lemma ChannelAnomaliesFacts(channel: Channel, baseline: seq<Reading>, config: Config, intervalSeconds: int, e: AnomalyEvent)
    requires HasAllDays(config)
    ensures var r := ChannelAnomalies(channel, baseline, config, intervalSeconds);
      && r.channelId == channel.channelId && r.anomalyCount == |r.events|
      && (e in r.events ==>
            e.totalExcessKwh >= config.anomaly.minExcessKwh && e.readingCount as real >= config.anomaly.minConsecutiveIntervals)
  {
    var profile := Profile(baseline, config.anomaly.iqrMultiplier);
    var flagged := Flagged(channel.readings, profile, GetIntervalHours(intervalSeconds), config);
    var all := AnomalyEvents(flagged, config.anomaly.minConsecutiveIntervals);
    FilterMembership(all, Significant(config.anomaly.minExcessKwh), e);
    if e in Filter(all, Significant(config.anomaly.minExcessKwh)) {
      AnomalyEventFacts(flagged, config.anomaly.minConsecutiveIntervals, e);
    }
  }

  method DetectAnomalies(channel: Channel, baseline: seq<Reading>, config: Config, intervalSeconds: int)
    returns (result: AnomalyResult)
    requires HasAllDays(config)
    ensures result == ChannelAnomalies(channel, baseline, config, intervalSeconds)
  {
    var intervalHours := GetIntervalHours(intervalSeconds);
    var profile := BuildBaselineProfile(baseline, config);
    var anomalous: seq<AnomalousReading> := [];
    for i := 0 to |channel.readings|
      invariant anomalous == Flagged(channel.readings[..i], profile, intervalHours, config)
    {
      var reading := channel.readings[i];
      assert channel.readings[..i + 1] == channel.readings[..i] + [reading];
      var hour := HourKey(reading);
      if hour !in profile {
        continue;
      }
      var power := PowerOf(reading);
      if power > profile[hour].upperThreshold {
        anomalous := anomalous + [ToAnomalous(profile, intervalHours, config, reading)];
      }
    }
    assert channel.readings[..|channel.readings|] == channel.readings;
    var events := GroupConsecutiveAnomalies(anomalous, config.anomaly.minConsecutiveIntervals);
    var significant := Filter(events, Significant(config.anomaly.minExcessKwh));
    result := AnomalyResult(channel.channelId, channel.channelName, |significant|, significant);
  }

  // ---------------------------------------------------------------------
  // analyze_anomalies and generate_anomaly_timeline

  /** The channels' results in channel order: channels without a usable
      baseline are skipped and results without anomalies dropped. */
  function KeptAnomalyResults(channels: seq<Channel>, baselines: seq<BaselineData>, config: Config, intervalSeconds: int)
    : (r: seq<AnomalyResult>)
    requires HasAllDays(config)
    ensures |r| <= |channels|
  {
    if |channels| == 0 then []
    else
      var c := Last(channels);
      var b := UsableBaseline(baselines, c.channelId);
      KeptAnomalyResults(channels[..|channels| - 1], baselines, config, intervalSeconds)
        + (if b.None? then []
           else
             var r := ChannelAnomalies(c, b.value, config, intervalSeconds);
             if r.anomalyCount > 0 then [r] else [])
  }

  /** Every kept result has anomalies and belongs to a channel with a usable
      baseline, analysed against that baseline. */
  lemma {:induction false} KeptAnomalyResultsFacts(channels: seq<Channel>, baselines: seq<BaselineData>, config: Config,
                                                  intervalSeconds: int, r: AnomalyResult)
    requires HasAllDays(config)
    requires r in KeptAnomalyResults(channels, baselines, config, intervalSeconds)
    ensures r.anomalyCount > 0
    ensures exists c :: (c in channels && UsableBaseline(baselines, c.channelId).Some?
      && r == ChannelAnomalies(c, UsableBaseline(baselines, c.channelId).value, config, intervalSeconds))
  {
    var p := channels[..|channels| - 1];
    if r in KeptAnomalyResults(p, baselines, config, intervalSeconds) {
      KeptAnomalyResultsFacts(p, baselines, config, intervalSeconds, r);
      var c :| c in p && UsableBaseline(baselines, c.channelId).Some?
        && r == ChannelAnomalies(c, UsableBaseline(baselines, c.channelId).value, config, intervalSeconds);
      assert c in channels;
    } else {
      assert Last(channels) in channels;
    }
  }

  function EventExcesses(events: seq<AnomalyEvent>): seq<real>
  {
    Map(events, (e: AnomalyEvent) => e.totalExcessKwh)
  }

  /** Highest summed excess first; `reverse=True` keeps ties in order. */
  function ByExcessDescending(r: AnomalyResult): Key
  {
    Key(-Sum(EventExcesses(r.events)), 0.0)
  }

  datatype TimelineEntry = TimelineEntry(channelName: string, start: TsValue, end: TsValue,
                                         peakPower: real, excessKwh: real, context: Context)

  function ToEntry(channelName: string): AnomalyEvent -> TimelineEntry
  {
    (e: AnomalyEvent) => TimelineEntry(channelName, e.start, e.end, e.peakPower, e.totalExcessKwh, e.context)
  }

  /** The timeline entries of `results` before sorting: each result's
      events in order, result after result. */
  function TimelineEntries(results: seq<AnomalyResult>): seq<TimelineEntry>
  {
    if |results| == 0 then []
    else TimelineEntries(results[..|results| - 1]) + Map(Last(results).events, ToEntry(Last(results).channelName))
  }

  lemma TimelineEntriesSnoc(results: seq<AnomalyResult>, i: nat)
    requires i < |results|
    ensures TimelineEntries(results[..i + 1])
         == TimelineEntries(results[..i]) + Map(results[i].events, ToEntry(results[i].channelName))
  {
    assert results[..i + 1][..i] == results[..i];
  }

  function ByStart(e: TimelineEntry): Key
  {
    Key(Instant(e.start) as real, 0.0)
  }

  method GenerateAnomalyTimeline(results: seq<AnomalyResult>) returns (timeline: seq<TimelineEntry>)
    ensures timeline == SortBy(TimelineEntries(results), ByStart)
  {
    timeline := [];
    for i := 0 to |results|
      invariant timeline == TimelineEntries(results[..i])
    {
      var entries := ResultEntries(results[i]);
      TimelineEntriesSnoc(results, i);
      timeline := timeline + entries;
    }
    assert results[..|results|] == results;
    timeline := SortBy(timeline, ByStart);
  }

  /** The inner loop of `generate_anomaly_timeline`: one entry per event of
      a result, in event order, labelled with the result's channel name. */
  method ResultEntries(channelResult: AnomalyResult) returns (entries: seq<TimelineEntry>)
    ensures entries == Map(channelResult.events, ToEntry(channelResult.channelName))
  {
    var entry := ToEntry(channelResult.channelName);
    entries := [];
    for j := 0 to |channelResult.events|
      invariant entries == Map(channelResult.events[..j], entry)
    {
      var event := channelResult.events[j];
      PrefixSnoc(channelResult.events, j);
      MapSnoc(channelResult.events[..j], event, entry);
      entries := entries + [TimelineEntry(channelResult.channelName, event.start, event.end,
                                          event.peakPower, event.totalExcessKwh, event.context)];
    }
    assert channelResult.events[..|channelResult.events|] == channelResult.events;
  }

  /** The timeline has one entry per event of the results, in order of
      start time, and it holds exactly those entries. */
  lemma TimelineFacts(results: seq<AnomalyResult>)
    ensures var t := SortBy(TimelineEntries(results), ByStart);
      && multiset(t) == multiset(TimelineEntries(results))
      && forall i, j :: 0 <= i < j < |t| ==> Instant(t[i].start) <= Instant(t[j].start)
  {
    var t := SortBy(TimelineEntries(results), ByStart);
    SortBySorted(TimelineEntries(results), ByStart);
    forall i, j | 0 <= i < j < |t| ensures Instant(t[i].start) <= Instant(t[j].start) {
      assert !Before(ByStart(t[j]), ByStart(t[i]));
    }
  }

  /** The number of timeline entries is the number of events. */
  lemma {:induction false} TimelineLength(results: seq<AnomalyResult>)
    ensures |TimelineEntries(results)| == SumNat(Map(results, (r: AnomalyResult) => |r.events|))
  {
    if |results| > 0 {
      var p := results[..|results| - 1];
      TimelineLength(p);
      MapSnoc(p, Last(results), (r: AnomalyResult) => |r.events|);
      SumNatSnoc(Map(p, (r: AnomalyResult) => |r.events|), |Last(results).events|);
      assert results == p + [Last(results)];
    }
  }

  datatype AnomalyAnalysis = AnomalyAnalysis(
    channelsWithAnomalies: nat, totalAnomalyEvents: nat, totalExcessKwh: real,
    results: seq<AnomalyResult>, timeline: seq<TimelineEntry>)

  function AnomalyCounts(results: seq<AnomalyResult>): seq<nat>
  {
    Map(results, (r: AnomalyResult) => r.anomalyCount)
  }

  function ResultExcesses(results: seq<AnomalyResult>): seq<real>
  {
    Map(results, (r: AnomalyResult) => Sum(EventExcesses(r.events)))
  }

  /** `analyze_anomalies`; `round(total, 2)` is taken as exact. */
  method AnalyzeAnomalies(channels: seq<Channel>, baselines: seq<BaselineData>, config: Config, intervalSeconds: int)
    returns (analysis: AnomalyAnalysis)
    requires HasAllDays(config)
    ensures var results := SortBy(KeptAnomalyResults(channels, baselines, config, intervalSeconds), ByExcessDescending);
      && analysis.results == results
      && analysis.channelsWithAnomalies == |results|
      && analysis.totalAnomalyEvents == SumNat(AnomalyCounts(results))
      && analysis.totalExcessKwh == Sum(ResultExcesses(results))
      && analysis.timeline == SortBy(TimelineEntries(results), ByStart)
  {
    var results: seq<AnomalyResult> := [];
    for i := 0 to |channels|
      invariant results == KeptAnomalyResults(channels[..i], baselines, config, intervalSeconds)
    {
      var channel := channels[i];
      assert channels[..i + 1] == channels[..i] + [channel];
      assert channels[..i + 1][..i] == channels[..i];
      var baseline := FindBaseline(baselines, channel.channelId);
      if baseline.None? || |baseline.value.readings| == 0 {
        continue;
      }
      var result := DetectAnomalies(channel, baseline.value.readings, config, intervalSeconds);
      if result.anomalyCount > 0 {
        results := results + [result];
      }
    }
    assert channels[..|channels|] == channels;
    results := SortBy(results, ByExcessDescending);
    var timeline := GenerateAnomalyTimeline(results);
    analysis := AnomalyAnalysis(|results|, SumNat(AnomalyCounts(results)), Sum(ResultExcesses(results)),
                                results, timeline);
  }

  /** The results are ordered by non-increasing summed excess, are a
      permutation of the kept results, and keep channel order among equal
      totals. */
  lemma AnalysisOrder(kept: seq<AnomalyResult>, k: Key)
    ensures var s := SortBy(kept, ByExcessDescending);
      && multiset(s) == multiset(kept)
      && (forall i, j :: 0 <= i < j < |s| ==> Sum(EventExcesses(s[i].events)) >= Sum(EventExcesses(s[j].events)))
      && Filter(s, HasKey(ByExcessDescending, k)) == Filter(kept, HasKey(ByExcessDescending, k))
  {
    var s := SortBy(kept, ByExcessDescending);
    SortBySorted(kept, ByExcessDescending);
    forall i, j | 0 <= i < j < |s| ensures Sum(EventExcesses(s[i].events)) >= Sum(EventExcesses(s[j].events)) {
      assert !Before(ByExcessDescending(s[j]), ByExcessDescending(s[i]));
    }
    SortByStable(kept, ByExcessDescending, k);
  }

  /** The number of timeline entries equals `totalAnomalyEvents`. */
  lemma TimelineCountsEvents(results: seq<AnomalyResult>)
    requires forall i :: 0 <= i < |results| ==> results[i].anomalyCount == |results[i].events|
    ensures |TimelineEntries(results)| == SumNat(AnomalyCounts(results))
  {
    TimelineLength(results);
    assert Map(results, (r: AnomalyResult) => |r.events|) == AnomalyCounts(results);
  }
}
