/** Spike detection: readings above a multiple of the hour-of-week 95th
    percentile and above an absolute floor, grouped into spike events, and
    the site-wide summary with the top spikes. */
module SpikeDetection {
  import opened Seqs
  import opened StableSort
  import opened DateUtils
  import opened StatsUtils
  import opened ReportConfig
  import opened Readings
  import opened EventRuns

  // ---------------------------------------------------------------------
  // build_spike_baseline

  datatype SpikeStats = SpikeStats(p95: real, p50: real, count: nat)

  /** The statistics of one hour's powers; the median never exceeds the
      95th percentile. */
  function SpikeStatsOf(powers: seq<real>): (s: SpikeStats)
    ensures s.count == |powers|
    ensures s.p95 == Percentile(powers, 95.0) && s.p50 == Percentile(powers, 50.0)
    ensures s.p50 <= s.p95
  {
    PercentileMonotone(powers, 50.0, 95.0);
    SpikeStats(Percentile(powers, 95.0), Percentile(powers, 50.0), |powers|)
  }

  /** The statistics of the hours `keys`. */
  function SpikeBaselineOver(baseline: seq<Reading>, keys: seq<int>): map<int, SpikeStats>
  {
    map k | k in keys :: SpikeStatsOf(BucketPowers(baseline, k))
  }

  /** The spike baseline: one entry per hour of week with a baseline
      reading. */
  function SpikeBaseline(baseline: seq<Reading>): (b: map<int, SpikeStats>)
    ensures forall k :: k in b <==> k in DistinctKeys(baseline, HourKey)
  {
    SpikeBaselineOver(baseline, DistinctKeys(baseline, HourKey))
  }

  /** Every entry counts at least one power, the powers of its hour, and has
      `p50 <= p95`. */
  lemma SpikeBaselineEntries(baseline: seq<Reading>, k: int)
    requires k in SpikeBaseline(baseline)
    ensures var s := SpikeBaseline(baseline)[k];
      s.count == |Filter(baseline, KeyIs(HourKey, k))| && s.count > 0 && s.p50 <= s.p95
  {
    BucketNonEmpty(baseline, k);
  }

  lemma SpikeBaselineStep(baseline: seq<Reading>, grouped: map<int, seq<Reading>>, order: seq<int>, j: nat)
    requires Grouped(grouped, order, baseline, HourKey) && j < |order|
    ensures order[j] in grouped
    ensures var powers := Map(grouped[order[j]], PowerOf);
      && |powers| > 0
      && SpikeBaselineOver(baseline, order[..j + 1])
         == SpikeBaselineOver(baseline, order[..j])[order[j] := SpikeStatsOf(powers)]
  {
    GroupedBucket(baseline, grouped, order, j);
    assert order[..j + 1] == order[..j] + [order[j]];
    SpikeBaselineOverSnoc(baseline, order[..j], order[j]);
  }

  lemma SpikeBaselineOverSnoc(baseline: seq<Reading>, keys: seq<int>, k: int)
    ensures SpikeBaselineOver(baseline, keys + [k])
         == SpikeBaselineOver(baseline, keys)[k := SpikeStatsOf(BucketPowers(baseline, k))]
  {
  }

  method BuildSpikeBaseline(baselineReadings: seq<Reading>) returns (baseline: map<int, SpikeStats>)
    ensures baseline == SpikeBaseline(baselineReadings)
  {
    var grouped, order := GroupBy(baselineReadings, HourKey);
    baseline := map[];
    for j := 0 to |order|
      invariant baseline == SpikeBaselineOver(baselineReadings, order[..j])
    {
      var hourOfWeek := order[j];
      var powers := Map(grouped[hourOfWeek], PowerOf);
      SpikeBaselineStep(baselineReadings, grouped, order, j);
      if |powers| > 0 {
        baseline := baseline[hourOfWeek := SpikeStats(Percentile(powers, 95.0), Percentile(powers, 50.0), |powers|)];
      }
    }
    assert order[..|order|] == order;
  }

  // ---------------------------------------------------------------------
  // The spike test

  /** `max(p95 * multiplier, floor)`: Python's `max` keeps the first
      argument on a tie. */
  function SpikeThreshold(p95: real, multiplier: real, floor: real): real
  {
    if floor > p95 * multiplier then floor else p95 * multiplier
  }

  /** The threshold is the larger of the scaled percentile and the floor. */
  lemma SpikeThresholdIsMax(p95: real, multiplier: real, floor: real)
    ensures var t := SpikeThreshold(p95, multiplier, floor);
      && t >= p95 * multiplier && t >= floor
      && (t == p95 * multiplier || t == floor)
  {
  }

  /** A power is a spike when it is above the threshold and above the
      floor. */
  predicate IsSpikePower(power: real, p95: real, multiplier: real, floor: real)
  {
    power > SpikeThreshold(p95, multiplier, floor) && power > floor
  }

  /** The floor test is implied by the threshold test: a spike is exactly a
      power above both `p95 * multiplier` and the floor. */
  lemma SpikeTest(power: real, p95: real, multiplier: real, floor: real)
    ensures IsSpikePower(power, p95, multiplier, floor) <==> power > p95 * multiplier && power > floor
    ensures IsSpikePower(power, p95, multiplier, floor) <==> power > SpikeThreshold(p95, multiplier, floor)
  {
  }

  datatype Spike = Spike(ts: TsValue, power: real, baselineP95: real, threshold: real,
                         excessKw: real, excessKwh: real)

  /** The absolute floor of a channel. */
  function FloorOf(config: Config, isSiteTotal: bool): real
  {
    if isSiteTotal then config.spike.siteMinKw else config.spike.submeterMinKw
  }

  predicate IsSpike(baseline: map<int, SpikeStats>, config: Config, isSiteTotal: bool, r: Reading)
  {
    && HourKey(r) in baseline
    && IsSpikePower(PowerOf(r), baseline[HourKey(r)].p95, config.spike.multiplier, FloorOf(config, isSiteTotal))
  }

  function ToSpike(baseline: map<int, SpikeStats>, config: Config, isSiteTotal: bool, intervalHours: real, r: Reading)
    : (s: Spike)
    requires HourKey(r) in baseline
    ensures s.ts == r.ts && s.power == PowerOf(r) && s.baselineP95 == baseline[HourKey(r)].p95
    ensures s.excessKw == s.power - s.baselineP95 && s.excessKwh == s.excessKw * intervalHours
  {
    var p95 := baseline[HourKey(r)].p95;
    var power := PowerOf(r);
    Spike(r.ts, power, p95, SpikeThreshold(p95, config.spike.multiplier, FloorOf(config, isSiteTotal)),
          power - p95, (power - p95) * intervalHours)
  }

  /** The spikes among `readings`, in order. */
  function Spikes(readings: seq<Reading>, baseline: map<int, SpikeStats>, config: Config, isSiteTotal: bool,
                  intervalHours: real): (r: seq<Spike>)
    ensures |r| <= |readings|
  {
    if |readings| == 0 then []
    else
      var x := Last(readings);
      Spikes(readings[..|readings| - 1], baseline, config, isSiteTotal, intervalHours)
        + (if IsSpike(baseline, config, isSiteTotal, x) then [ToSpike(baseline, config, isSiteTotal, intervalHours, x)]
           else [])
  }

  lemma SpikesSnoc(readings: seq<Reading>, i: nat, baseline: map<int, SpikeStats>, config: Config, isSiteTotal: bool,
                   intervalHours: real)
    requires i < |readings|
    ensures Spikes(readings[..i + 1], baseline, config, isSiteTotal, intervalHours)
         == Spikes(readings[..i], baseline, config, isSiteTotal, intervalHours)
            + (if IsSpike(baseline, config, isSiteTotal, readings[i])
               then [ToSpike(baseline, config, isSiteTotal, intervalHours, readings[i])] else [])
  {
    assert readings[..i + 1][..i] == readings[..i];
  }

  /** Every spike is above both its threshold and the channel's floor. */
  lemma {:induction false} SpikesAboveFloor(readings: seq<Reading>, baseline: map<int, SpikeStats>, config: Config,
                                           isSiteTotal: bool, intervalHours: real, s: Spike)
    requires s in Spikes(readings, baseline, config, isSiteTotal, intervalHours)
    ensures s.power > s.threshold && s.power > FloorOf(config, isSiteTotal)
    ensures s.threshold >= s.baselineP95 * config.spike.multiplier
  {
    var p := readings[..|readings| - 1];
    if s in Spikes(p, baseline, config, isSiteTotal, intervalHours) {
      SpikesAboveFloor(p, baseline, config, isSiteTotal, intervalHours, s);
    }
  }

  /** Every reading that passes the spike test has its spike in the result:
      the converse of `SpikesAboveFloor`. */
  lemma {:induction false} SpikesMembership(readings: seq<Reading>, baseline: map<int, SpikeStats>, config: Config,
                                           isSiteTotal: bool, intervalHours: real, i: nat)
    requires i < |readings| && IsSpike(baseline, config, isSiteTotal, readings[i])
    ensures ToSpike(baseline, config, isSiteTotal, intervalHours, readings[i])
         in Spikes(readings, baseline, config, isSiteTotal, intervalHours)
  {
    var p := readings[..|readings| - 1];
    if i < |p| {
      assert p[i] == readings[i];
      SpikesMembership(p, baseline, config, isSiteTotal, intervalHours, i);
    }
  }

  // ---------------------------------------------------------------------
  // group_consecutive_spikes

  datatype SpikeEvent = SpikeEvent(start: TsValue, end: TsValue, peakPower: real, totalExcessKwh: real,
                                   intervals: nat)

  /** A spike extends the current event when it comes at most two intervals
      after the event's end. */
  function SpikeJoins(intervalSeconds: int): (Spike, Spike) -> bool
  {
    (prev: Spike, curr: Spike) => ParseTimestamp(curr.ts).utc - ParseTimestamp(prev.ts).utc <= intervalSeconds * 2
  }

  function SpikePowers(run: seq<Spike>): seq<real>
  {
    Map(run, (s: Spike) => s.power)
  }

  function SpikeExcesses(run: seq<Spike>): seq<real>
  {
    Map(run, (s: Spike) => s.excessKwh)
  }

  /** The event made of the spikes `run`. */
  function SpikeEventOf(run: seq<Spike>): (e: SpikeEvent)
    requires |run| > 0
    ensures e.start == run[0].ts && e.end == Last(run).ts && e.intervals == |run|
    ensures e.peakPower in SpikePowers(run) && forall p :: p in SpikePowers(run) ==> p <= e.peakPower
  {
    SpikeEvent(run[0].ts, Last(run).ts, MaxOf(SpikePowers(run)), Sum(SpikeExcesses(run)), |run|)
  }

  /** One event per run. */
  function EventsOf(runs: seq<seq<Spike>>): (r: seq<SpikeEvent>)
    requires forall i :: 0 <= i < |runs| ==> |runs[i]| > 0
    ensures |r| == |runs|
  {
    if |runs| == 0 then []
    else EventsOf(runs[..|runs| - 1]) + [SpikeEventOf(Last(runs))]
  }

  /** The `i`-th event is the event of the `i`-th run, so an event has as
      many intervals as its run has spikes. */
  lemma {:induction false} EventsOfIntervals(runs: seq<seq<Spike>>)
    requires forall i :: 0 <= i < |runs| ==> |runs[i]| > 0
    ensures Map(EventsOf(runs), (e: SpikeEvent) => e.intervals) == Lengths(runs)
  {
    if |runs| > 0 {
      var p := runs[..|runs| - 1];
      EventsOfIntervals(p);
      MapSnoc(EventsOf(p), SpikeEventOf(Last(runs)), (e: SpikeEvent) => e.intervals);
      assert Lengths(runs) == Lengths(p) + [|Last(runs)|];
    }
  }

  /** The events `group_consecutive_spikes` returns. */
  function SpikeEvents(spikes: seq<Spike>, intervalSeconds: int): seq<SpikeEvent>
  {
    EventsOf(Runs(spikes, SpikeJoins(intervalSeconds)))
  }

  /** Grouping drops no spike: the intervals of the events add up to the
      number of spikes. */
  lemma SpikeIntervalsTotal(spikes: seq<Spike>, intervalSeconds: int)
    ensures SumNat(Map(SpikeEvents(spikes, intervalSeconds), (e: SpikeEvent) => e.intervals)) == |spikes|
  {
    var rs := Runs(spikes, SpikeJoins(intervalSeconds));
    EventsOfIntervals(rs);
    FlattenLengths(rs);
    RunsFlatten(spikes, SpikeJoins(intervalSeconds));
  }

  /** The first spike after an event ends more than two intervals after the
      event's last spike. */
  lemma SpikeEventsSeparated(spikes: seq<Spike>, intervalSeconds: int, i: int)
    requires 0 <= i < |SpikeEvents(spikes, intervalSeconds)| - 1
    ensures var rs := Runs(spikes, SpikeJoins(intervalSeconds));
      ParseTimestamp(rs[i + 1][0].ts).utc - ParseTimestamp(SpikeEvents(spikes, intervalSeconds)[i].end).utc
        > intervalSeconds * 2
  {
    RunsSplitBetween(spikes, SpikeJoins(intervalSeconds), i);
  }

  /** Consecutive spikes of one event are at most two intervals apart. */
  lemma SpikeRunJoined(spikes: seq<Spike>, intervalSeconds: int, i: int, k: int)
    requires 0 <= i < |Runs(spikes, SpikeJoins(intervalSeconds))|
    requires 0 <= k < |Runs(spikes, SpikeJoins(intervalSeconds))[i]| - 1
    ensures var run := Runs(spikes, SpikeJoins(intervalSeconds))[i];
      ParseTimestamp(run[k + 1].ts).utc - ParseTimestamp(run[k].ts).utc <= intervalSeconds * 2
  {
    RunsJoinWithin(spikes, SpikeJoins(intervalSeconds), i, k);
  }

  /** At a 900 s resolution, spikes 600 s apart merge into one event and a
      spike 2400 s later starts another. */
  lemma SpikeGroupingAtQuarterHour(a: Spike, b: Spike, c: Spike)
    requires a.ts == Epoch(0) && b.ts == Epoch(600) && c.ts == Epoch(3000)
    ensures Runs([a, b, c], SpikeJoins(900)) == [[a, b], [c]]
  {
    var joins := SpikeJoins(900);
    RunsSnoc([], a, joins);
    assert [] + [a] == [a];
    RunsSnoc([a], b, joins);
    assert [a] + [b] == [a, b];
    RunsSnoc([a, b], c, joins);
    assert [a, b] + [c] == [a, b, c];
  }

  /** The `current_event` dict without the duration string. */
  datatype OpenSpikeEvent = OpenSpikeEvent(start: TsValue, end: TsValue, peakPower: real, totalExcessKwh: real,
                                           intervals: nat)

  function OpenOf(run: seq<Spike>): OpenSpikeEvent
    requires |run| > 0
  {
    var e := SpikeEventOf(run);
    OpenSpikeEvent(e.start, e.end, e.peakPower, e.totalExcessKwh, e.intervals)
  }

  function Opened(x: Spike): OpenSpikeEvent
  {
    OpenSpikeEvent(x.ts, x.ts, x.power, x.excessKwh, 1)
  }

  /** The event after `x` joins it: the end moves, the peak is
      `max(peak, power)`, the excess is added and `intervals += 1`. */
  function Extend(ev: OpenSpikeEvent, x: Spike): OpenSpikeEvent
  {
    ev.(end := x.ts, peakPower := if x.power > ev.peakPower then x.power else ev.peakPower,
        totalExcessKwh := ev.totalExcessKwh + x.excessKwh, intervals := ev.intervals + 1)
  }

  /** `{**current_event, 'duration': ...}` */
  function Close(ev: OpenSpikeEvent): SpikeEvent
  {
    SpikeEvent(ev.start, ev.end, ev.peakPower, ev.totalExcessKwh, ev.intervals)
  }

  lemma OpenOfOne(x: Spike)
    ensures OpenOf([x]) == Opened(x)
  {
    assert SpikePowers([x]) == [x.power];
    assert SpikeExcesses([x]) == [x.excessKwh];
    assert Sum([x.excessKwh]) == Sum([]) + x.excessKwh by {
      assert [x.excessKwh][..0] == [];
    }
  }

  lemma OpenOfSnoc(run: seq<Spike>, x: Spike)
    requires |run| > 0
    ensures OpenOf(run + [x]) == Extend(OpenOf(run), x)
  {
    MapSnoc(run, x, (s: Spike) => s.power);
    MapSnoc(run, x, (s: Spike) => s.excessKwh);
    SumSnoc(SpikeExcesses(run), x.excessKwh);
    var ps := SpikePowers(run) + [x.power];
    assert ps[..|ps| - 1] == SpikePowers(run);
  }

  lemma CloseOpenOf(run: seq<Spike>)
    requires |run| > 0
    ensures Close(OpenOf(run)) == SpikeEventOf(run)
  {
  }

  ghost predicate RunsState(rs: seq<seq<Spike>>, current: OpenSpikeEvent, events: seq<SpikeEvent>)
  {
    && |rs| > 0 && (forall k :: 0 <= k < |rs| ==> |rs[k]| > 0)
    && current == OpenOf(Last(rs)) && events == EventsOf(rs[..|rs| - 1])
  }

  /** The loop state after the spikes `p`. */
  ghost predicate SpikeGroupState(p: seq<Spike>, intervalSeconds: int, current: Option<OpenSpikeEvent>,
                                  events: seq<SpikeEvent>)
  {
    if |p| == 0 then current.None? && events == []
    else current.Some? && RunsState(Runs(p, SpikeJoins(intervalSeconds)), current.value, events)
  }

  lemma SpikeGroupStateRuns(p: seq<Spike>, intervalSeconds: int, current: Option<OpenSpikeEvent>,
                            events: seq<SpikeEvent>)
    requires |p| > 0
    ensures SpikeGroupState(p, intervalSeconds, current, events)
        <==> current.Some? && RunsState(Runs(p, SpikeJoins(intervalSeconds)), current.value, events)
  {
  }

  lemma ExtendRuns(rs: seq<seq<Spike>>, x: Spike, ev: OpenSpikeEvent, events: seq<SpikeEvent>)
    requires RunsState(rs, ev, events)
    ensures RunsState(rs[..|rs| - 1] + [Last(rs) + [x]], Extend(ev, x), events)
  {
    ExtendLastRun(rs, x);
    OpenOfSnoc(Last(rs), x);
  }

  lemma SplitRuns(rs: seq<seq<Spike>>, x: Spike, ev: OpenSpikeEvent, events: seq<SpikeEvent>)
    requires RunsState(rs, ev, events)
    ensures RunsState(rs + [[x]], Opened(x), events + [Close(ev)])
  {
    var init := rs[..|rs| - 1];
    StartNewRun(rs, x);
    assert EventsOf(rs) == EventsOf(init) + [SpikeEventOf(Last(rs))];
    CloseOpenOf(Last(rs));
    OpenOfOne(x);
  }

  lemma StartStep(spikes: seq<Spike>, i: nat, intervalSeconds: int, events: seq<SpikeEvent>)
    requires i < |spikes| && SpikeGroupState(spikes[..i], intervalSeconds, None, events)
    ensures SpikeGroupState(spikes[..i + 1], intervalSeconds, Some(Opened(spikes[i])), events)
  {
    var x := spikes[i];
    assert spikes[..i] == [];
    assert spikes[..i + 1] == [x];
    assert Runs([x], SpikeJoins(intervalSeconds)) == [[x]] by {
      RunsSnoc([], x, SpikeJoins(intervalSeconds));
      assert [] + [x] == [x];
    }
    OpenOfOne(x);
  }

  lemma ExtendStep(spikes: seq<Spike>, i: nat, intervalSeconds: int, ev: OpenSpikeEvent, events: seq<SpikeEvent>)
    requires i < |spikes| && SpikeGroupState(spikes[..i], intervalSeconds, Some(ev), events)
    requires ParseTimestamp(spikes[i].ts).utc - ParseTimestamp(ev.end).utc <= intervalSeconds * 2
    ensures SpikeGroupState(spikes[..i + 1], intervalSeconds, Some(Extend(ev, spikes[i])), events)
  {
    var p, x := spikes[..i], spikes[i];
    assert spikes[..i + 1] == p + [x];
    var rs := Runs(p, SpikeJoins(intervalSeconds));
    SpikeGroupStateRuns(p, intervalSeconds, Some(ev), events);
    SpikeGroupStateRuns(p + [x], intervalSeconds, Some(Extend(ev, x)), events);
    assert Runs(p + [x], SpikeJoins(intervalSeconds)) == rs[..|rs| - 1] + [Last(rs) + [x]] by {
      RunsSnoc(p, x, SpikeJoins(intervalSeconds));
      assert SpikeJoins(intervalSeconds)(Last(Last(rs)), x);
    }
    ExtendRuns(rs, x, ev, events);
  }

  lemma SplitStep(spikes: seq<Spike>, i: nat, intervalSeconds: int, ev: OpenSpikeEvent, events: seq<SpikeEvent>)
    requires i < |spikes| && SpikeGroupState(spikes[..i], intervalSeconds, Some(ev), events)
    requires !(ParseTimestamp(spikes[i].ts).utc - ParseTimestamp(ev.end).utc <= intervalSeconds * 2)
    ensures SpikeGroupState(spikes[..i + 1], intervalSeconds, Some(Opened(spikes[i])), events + [Close(ev)])
  {
    var p, x := spikes[..i], spikes[i];
    assert spikes[..i + 1] == p + [x];
    var rs := Runs(p, SpikeJoins(intervalSeconds));
    SpikeGroupStateRuns(p, intervalSeconds, Some(ev), events);
    SpikeGroupStateRuns(p + [x], intervalSeconds, Some(Opened(x)), events + [Close(ev)]);
    assert Runs(p + [x], SpikeJoins(intervalSeconds)) == rs + [[x]] by {
      RunsSnoc(p, x, SpikeJoins(intervalSeconds));
    }
    SplitRuns(rs, x, ev, events);
  }

  lemma FinalStep(spikes: seq<Spike>, intervalSeconds: int, current: Option<OpenSpikeEvent>, events: seq<SpikeEvent>)
    requires |spikes| > 0 && SpikeGroupState(spikes, intervalSeconds, current, events)
    ensures current.Some? && SpikeEvents(spikes, intervalSeconds) == events + [Close(current.value)]
  {
    var rs := Runs(spikes, SpikeJoins(intervalSeconds));
    assert rs == rs[..|rs| - 1] + [Last(rs)];
    CloseOpenOf(Last(rs));
  }

  method GroupConsecutiveSpikes(spikes: seq<Spike>, intervalSeconds: int) returns (events: seq<SpikeEvent>)
    ensures events == SpikeEvents(spikes, intervalSeconds)
  {
    if |spikes| == 0 {
      return [];
    }
    events := [];
    var current: Option<OpenSpikeEvent> := None;
    for i := 0 to |spikes|
      invariant SpikeGroupState(spikes[..i], intervalSeconds, current, events)
    {
      var spike := spikes[i];
      if current.None? {
        StartStep(spikes, i, intervalSeconds, events);
        current := Some(Opened(spike));
      } else {
        var ev := current.value;
        var gap := ParseTimestamp(spike.ts).utc - ParseTimestamp(ev.end).utc;
        if gap <= intervalSeconds * 2 {
          ExtendStep(spikes, i, intervalSeconds, ev, events);
          current := Some(Extend(ev, spike));
        } else {
          SplitStep(spikes, i, intervalSeconds, ev, events);
          events := events + [Close(ev)];
          current := Some(Opened(spike));
        }
      }
    }
    assert spikes[..|spikes|] == spikes;
    FinalStep(spikes, intervalSeconds, current, events);
    if current.Some? {
      events := events + [Close(current.value)];
    }
  }

  // ---------------------------------------------------------------------
  // detect_spikes

  datatype SpikeResult = SpikeResult(channelId: int, channelName: string, spikeCount: nat, events: seq<SpikeEvent>)

  function LongEnough(minDuration: real): SpikeEvent -> bool
  {
    (e: SpikeEvent) => e.intervals as real >= minDuration
  }

  /** What `detect_spikes` returns for one channel. */
  function ChannelSpikes(channel: Channel, baselineReadings: seq<Reading>, config: Config, intervalSeconds: int,
                         isSiteTotal: bool): SpikeResult
  {
    var spikes := Spikes(channel.readings, SpikeBaseline(baselineReadings), config, isSiteTotal,
                         GetIntervalHours(intervalSeconds));
    var events := Filter(SpikeEvents(spikes, intervalSeconds), LongEnough(config.spike.minDuration));
    SpikeResult(channel.channelId, channel.channelName, |events|, events)
  }

  /** The count is the number of events kept, each at least `minDuration`
      intervals long. */
  lemma ChannelSpikesFacts(channel: Channel, baselineReadings: seq<Reading>, config: Config, intervalSeconds: int,
                           isSiteTotal: bool, e: SpikeEvent)
    ensures var r := ChannelSpikes(channel, baselineReadings, config, intervalSeconds, isSiteTotal);
      && r.channelId == channel.channelId && r.spikeCount == |r.events|
      && (e in r.events ==> e.intervals as real >= config.spike.minDuration)
  {
    var spikes := Spikes(channel.readings, SpikeBaseline(baselineReadings), config, isSiteTotal,
                         GetIntervalHours(intervalSeconds));
    FilterMembership(SpikeEvents(spikes, intervalSeconds), LongEnough(config.spike.minDuration), e);
  }

  /** The loop of `detect_spikes` over the channel's readings. */
  method FlagSpikes(readings: seq<Reading>, baseline: map<int, SpikeStats>, config: Config, isSiteTotal: bool,
                    intervalHours: real) returns (spikes: seq<Spike>)
    ensures spikes == Spikes(readings, baseline, config, isSiteTotal, intervalHours)
  {
    var minAbsoluteKw := FloorOf(config, isSiteTotal);
    var multiplier := config.spike.multiplier;
    spikes := [];
    for i := 0 to |readings|
      invariant spikes == Spikes(readings[..i], baseline, config, isSiteTotal, intervalHours)
    {
      var reading := readings[i];
      SpikesSnoc(readings, i, baseline, config, isSiteTotal, intervalHours);
      var hourOfWeek := HourKey(reading);
      if hourOfWeek !in baseline {
        continue;
      }
      var stats := baseline[hourOfWeek];
      var power := PowerOf(reading);
      var threshold := SpikeThreshold(stats.p95, multiplier, minAbsoluteKw);
      if power > threshold && power > minAbsoluteKw {
        spikes := spikes + [ToSpike(baseline, config, isSiteTotal, intervalHours, reading)];
      }
    }
    assert readings[..|readings|] == readings;
  }

  method DetectSpikes(channel: Channel, baselineReadings: seq<Reading>, config: Config, intervalSeconds: int,
                      isSiteTotal: bool) returns (result: SpikeResult)
    ensures result == ChannelSpikes(channel, baselineReadings, config, intervalSeconds, isSiteTotal)
  {
    var intervalHours := GetIntervalHours(intervalSeconds);
    var baseline := BuildSpikeBaseline(baselineReadings);
    var spikes := FlagSpikes(channel.readings, baseline, config, isSiteTotal, intervalHours);
    var events := GroupConsecutiveSpikes(spikes, intervalSeconds);
    var significant := Filter(events, LongEnough(config.spike.minDuration));
    result := SpikeResult(channel.channelId, channel.channelName, |significant|, significant);
  }

  // ---------------------------------------------------------------------
  // analyze_spikes and get_top_spikes

  /** The channels' results in channel order: channels without a usable
      baseline are skipped and results without spikes dropped. */
  function KeptSpikeResults(channels: seq<Channel>, baselines: seq<BaselineData>, config: Config, intervalSeconds: int,
                            siteChannelId: Option<int>): (r: seq<SpikeResult>)
    ensures |r| <= |channels|
  {
    if |channels| == 0 then []
    else
      KeptSpikeResults(channels[..|channels| - 1], baselines, config, intervalSeconds, siteChannelId)
        + KeptSpikeResult(Last(channels), baselines, config, intervalSeconds, siteChannelId)
  }

  /** The result of one channel when it is kept. */
  function KeptSpikeResult(c: Channel, baselines: seq<BaselineData>, config: Config, intervalSeconds: int,
                           siteChannelId: Option<int>): seq<SpikeResult>
  {
    var b := UsableBaseline(baselines, c.channelId);
    if b.None? then []
    else
      var r := ChannelSpikes(c, b.value, config, intervalSeconds, siteChannelId == Some(c.channelId));
      if r.spikeCount > 0 then [r] else []
  }

  lemma KeptSpikeResultsSnoc(channels: seq<Channel>, i: nat, baselines: seq<BaselineData>, config: Config,
                             intervalSeconds: int, siteChannelId: Option<int>)
    requires i < |channels|
    ensures KeptSpikeResults(channels[..i + 1], baselines, config, intervalSeconds, siteChannelId)
         == KeptSpikeResults(channels[..i], baselines, config, intervalSeconds, siteChannelId)
            + KeptSpikeResult(channels[i], baselines, config, intervalSeconds, siteChannelId)
  {
    assert channels[..i + 1][..i] == channels[..i];
  }

  /** Every kept result has spikes and belongs to a channel with a usable
      baseline; only the site channel is held to the site floor. */
  lemma {:induction false} KeptSpikeResultsFacts(channels: seq<Channel>, baselines: seq<BaselineData>, config: Config,
                                                intervalSeconds: int, siteChannelId: Option<int>, r: SpikeResult)
    requires r in KeptSpikeResults(channels, baselines, config, intervalSeconds, siteChannelId)
    ensures r.spikeCount > 0
    ensures exists c :: (c in channels && UsableBaseline(baselines, c.channelId).Some?
      && r == ChannelSpikes(c, UsableBaseline(baselines, c.channelId).value, config, intervalSeconds,
                            siteChannelId == Some(c.channelId)))
  {
    var p := channels[..|channels| - 1];
    if r in KeptSpikeResults(p, baselines, config, intervalSeconds, siteChannelId) {
      KeptSpikeResultsFacts(p, baselines, config, intervalSeconds, siteChannelId, r);
      var c :| c in p && UsableBaseline(baselines, c.channelId).Some?
        && r == ChannelSpikes(c, UsableBaseline(baselines, c.channelId).value, config, intervalSeconds,
                              siteChannelId == Some(c.channelId));
      assert c in channels;
    } else {
      assert Last(channels) in channels;
    }
  }

  function EventPeaks(events: seq<SpikeEvent>): seq<real>
  {
    Map(events, (e: SpikeEvent) => e.peakPower)
  }

  /** `max(e['peakPower'] for e in r['events']) if r['events'] else 0` */
  function MaxPeak(r: SpikeResult): real
  {
    if |r.events| == 0 then 0.0 else MaxOf(EventPeaks(r.events))
  }

  function ByPeakDescending(r: SpikeResult): Key
  {
    Key(-MaxPeak(r), 0.0)
  }

  /** A spike event tagged with its channel name. */
  datatype TopSpike = TopSpike(channelName: string, event: SpikeEvent)

  function Tag(channelName: string): SpikeEvent -> TopSpike
  {
    (e: SpikeEvent) => TopSpike(channelName, e)
  }

  /** Every event of `results`, result after result. */
  function AllSpikes(results: seq<SpikeResult>): seq<TopSpike>
  {
    if |results| == 0 then []
    else AllSpikes(results[..|results| - 1]) + Map(Last(results).events, Tag(Last(results).channelName))
  }

  lemma AllSpikesSnoc(results: seq<SpikeResult>, i: nat)
    requires i < |results|
    ensures AllSpikes(results[..i + 1]) == AllSpikes(results[..i]) + Map(results[i].events, Tag(results[i].channelName))
  {
    assert results[..i + 1][..i] == results[..i];
  }

  function BySpikePeak(s: TopSpike): Key
  {
    Key(-s.event.peakPower, 0.0)
  }

  /** The largest `count` spikes by peak. */
  function TopSpikes(results: seq<SpikeResult>, count: int): seq<TopSpike>
  {
    Take(SortBy(AllSpikes(results), BySpikePeak), count)
  }

  method GetTopSpikes(results: seq<SpikeResult>, count: int) returns (top: seq<TopSpike>)
    ensures top == TopSpikes(results, count)
  {
    var allSpikes: seq<TopSpike> := [];
    for i := 0 to |results|
      invariant allSpikes == AllSpikes(results[..i])
    {
      var channelResult := results[i];
      var tag := Tag(channelResult.channelName);
      ghost var before := allSpikes;
      for j := 0 to |channelResult.events|
        invariant allSpikes == before + Map(channelResult.events[..j], tag)
      {
        var event := channelResult.events[j];
        assert Map(channelResult.events[..j + 1], tag) == Map(channelResult.events[..j], tag) + [tag(event)] by {
          assert channelResult.events[..j + 1] == channelResult.events[..j] + [event];
          MapSnoc(channelResult.events[..j], event, tag);
        }
        allSpikes := allSpikes + [TopSpike(channelResult.channelName, event)];
      }
      assert channelResult.events[..|channelResult.events|] == channelResult.events;
      AllSpikesSnoc(results, i);
    }
    assert results[..|results|] == results;
    allSpikes := SortBy(allSpikes, BySpikePeak);
    top := Take(allSpikes, count);
  }

  /** The top spikes are at most `count` of the spikes, in non-increasing
      order of peak, and no spike left out has a higher peak than one kept. */
  lemma TopSpikesFacts(results: seq<SpikeResult>, count: nat)
    ensures var all := AllSpikes(results);
      var top := TopSpikes(results, count);
      && |top| == (if count < |all| then count else |all|)
      && (forall i, j :: 0 <= i < j < |top| ==> top[i].event.peakPower >= top[j].event.peakPower)
      && (forall x :: x in top ==> x in all)
      && (forall x, y :: x in top && y in all && y !in top ==> y.event.peakPower <= x.event.peakPower)
  {
    var all := AllSpikes(results);
    var sorted := SortBy(all, BySpikePeak);
    var top := TopSpikes(results, count);
    SortBySorted(all, BySpikePeak);
    ByPeakDescendingOrder(sorted);
    DescendingPrefix(sorted, |top|);
    forall x | x in sorted ensures x in all {
      assert x in multiset(sorted);
    }
    forall y | y in all ensures y in sorted {
      assert y in multiset(all);
    }
  }

  /** Sorted by `BySpikePeak` means non-increasing in peak. */
  lemma ByPeakDescendingOrder(s: seq<TopSpike>)
    requires SortedBy(s, BySpikePeak)
    ensures forall i, j :: 0 <= i < j < |s| ==> s[i].event.peakPower >= s[j].event.peakPower
  {
    forall i, j | 0 <= i < j < |s| ensures s[i].event.peakPower >= s[j].event.peakPower {
      assert !Before(BySpikePeak(s[j]), BySpikePeak(s[i]));
    }
  }

  /** In a sequence non-increasing in peak, no element outside a prefix
      has a higher peak than one inside it. */
  lemma DescendingPrefix(s: seq<TopSpike>, n: nat)
    requires n <= |s|
    requires forall i, j :: 0 <= i < j < |s| ==> s[i].event.peakPower >= s[j].event.peakPower
    ensures forall x, y :: x in s[..n] && y in s && y !in s[..n] ==> y.event.peakPower <= x.event.peakPower
  {
    forall x, y | x in s[..n] && y in s && y !in s[..n] ensures y.event.peakPower <= x.event.peakPower {
      var i :| 0 <= i < n && s[..n][i] == x;
      var j :| 0 <= j < |s| && s[j] == y;
    }
  }

  datatype SpikeAnalysis = SpikeAnalysis(
    channelsWithSpikes: nat, totalSpikeEvents: nat, totalExcessKwh: real,
    results: seq<SpikeResult>, topSpikes: seq<TopSpike>)

  function SpikeCounts(results: seq<SpikeResult>): seq<nat>
  {
    Map(results, (r: SpikeResult) => r.spikeCount)
  }

  function SpikeResultExcesses(results: seq<SpikeResult>): seq<real>
  {
    Map(results, (r: SpikeResult) => Sum(Map(r.events, (e: SpikeEvent) => e.totalExcessKwh)))
  }

  /** One pass of the channel loop of `analyze_spikes`: a channel without a
      usable baseline is skipped, and a channel is kept only when it has a
      spike. */
  method AnalyzeChannel(channel: Channel, baselines: seq<BaselineData>, config: Config, intervalSeconds: int,
                        siteChannelId: Option<int>) returns (kept: seq<SpikeResult>)
    ensures kept == KeptSpikeResult(channel, baselines, config, intervalSeconds, siteChannelId)
  {
    var baseline := FindBaseline(baselines, channel.channelId);
    if baseline.None? || |baseline.value.readings| == 0 {
      assert UsableBaseline(baselines, channel.channelId).None?;
      return [];
    }
    var isSiteTotal := siteChannelId == Some(channel.channelId);
    var result := DetectSpikes(channel, baseline.value.readings, config, intervalSeconds, isSiteTotal);
    KeptSpikeResultOf(channel, baselines, config, intervalSeconds, siteChannelId, result);
    kept := if result.spikeCount > 0 then [result] else [];
  }

  /** A channel with a usable baseline is kept exactly when its result has
      spikes. */
  lemma KeptSpikeResultOf(channel: Channel, baselines: seq<BaselineData>, config: Config, intervalSeconds: int,
                          siteChannelId: Option<int>, result: SpikeResult)
    requires UsableBaseline(baselines, channel.channelId).Some?
    requires result == ChannelSpikes(channel, UsableBaseline(baselines, channel.channelId).value, config,
                                     intervalSeconds, siteChannelId == Some(channel.channelId))
    ensures KeptSpikeResult(channel, baselines, config, intervalSeconds, siteChannelId)
         == if result.spikeCount > 0 then [result] else []
  {
  }

  /** `analyze_spikes`; `round(total, 2)` is taken as exact. */
  method AnalyzeSpikes(channels: seq<Channel>, baselines: seq<BaselineData>, config: Config, intervalSeconds: int,
                       siteChannelId: Option<int>) returns (analysis: SpikeAnalysis)
    ensures var results := SortBy(KeptSpikeResults(channels, baselines, config, intervalSeconds, siteChannelId),
                                  ByPeakDescending);
      && analysis.results == results
      && analysis.channelsWithSpikes == |results|
      && analysis.totalSpikeEvents == SumNat(SpikeCounts(results))
      && analysis.totalExcessKwh == Sum(SpikeResultExcesses(results))
      && analysis.topSpikes == TopSpikes(results, 10)
  {
    var results: seq<SpikeResult> := [];
    for i := 0 to |channels|
      invariant results == KeptSpikeResults(channels[..i], baselines, config, intervalSeconds, siteChannelId)
    {
      KeptSpikeResultsSnoc(channels, i, baselines, config, intervalSeconds, siteChannelId);
      var kept := AnalyzeChannel(channels[i], baselines, config, intervalSeconds, siteChannelId);
      results := results + kept;
    }
    assert channels[..|channels|] == channels;
    results := SortBy(results, ByPeakDescending);
    var top := GetTopSpikes(results, 10);
    analysis := SpikeAnalysis(|results|, SumNat(SpikeCounts(results)), Sum(SpikeResultExcesses(results)),
                              results, top);
  }

  /** The results are a permutation of the kept results in non-increasing
      order of their highest peak. */
  lemma SpikeAnalysisOrder(kept: seq<SpikeResult>)
    ensures var s := SortBy(kept, ByPeakDescending);
      && multiset(s) == multiset(kept)
      && forall i, j :: 0 <= i < j < |s| ==> MaxPeak(s[i]) >= MaxPeak(s[j])
  {
    var s := SortBy(kept, ByPeakDescending);
    SortBySorted(kept, ByPeakDescending);
    forall i, j | 0 <= i < j < |s| ensures MaxPeak(s[i]) >= MaxPeak(s[j]) {
      assert !Before(ByPeakDescending(s[j]), ByPeakDescending(s[i]));
    }
  }
}
