/** After-hours energy waste: consumption outside business hours above a
    low-percentile baseline of the channel's own after-hours load. */
module AfterHoursWaste {
  import opened Seqs
  import opened StableSort
  import opened DateUtils
  import opened StatsUtils
  import opened ReportConfig
  import opened Readings

  // ---------------------------------------------------------------------
  // The after-hours baseline

  /** A reading taken outside business hours. The day guard holds under
      `HasAllDays`, which every operation below assumes. */
  function AfterHours(config: Config): Reading -> bool
  {
    (r: Reading) =>
      var d := ParseTimestamp(r.ts);
      DayNames[Weekday(d)] in config.businessHours && !IsBusinessHours(d, config)
  }

  lemma AfterHoursIsNotBusiness(config: Config, r: Reading)
    requires HasAllDays(config)
    ensures var d := ParseTimestamp(r.ts);
      DayNames[Weekday(d)] in config.businessHours
      && (AfterHours(config)(r) <==> !IsBusinessHours(d, config))
  {
  }

  function Above(threshold: real): real -> bool
  {
    (p: real) => p > threshold
  }

  /** The powers of the after-hours baseline readings that exceed
      `minPowerThreshold`, in input order. */
  function BaselineAfterHoursPowers(baseline: seq<Reading>, config: Config): seq<real>
  {
    Filter(Map(Filter(baseline, AfterHours(config)), PowerOf), Above(config.afterHours.minPowerThreshold))
  }

  /** numpy rejects a percentile outside `[0, 100]` once there is a
      positive power to take it of. */
  predicate BaselinePercentileValid(baseline: seq<Reading>, config: Config)
  {
    Filter(BaselineAfterHoursPowers(baseline, config), Positive) == []
    || 0.0 <= config.afterHours.baselinePercentile <= 100.0
  }

  /** `baseline_kw`: the `baselinePercentile`-th percentile of the positive
      selected powers. */
  function BaselineKw(baseline: seq<Reading>, config: Config): (kw: real)
    requires BaselinePercentileValid(baseline, config)
  {
    NonZeroPercentile(BaselineAfterHoursPowers(baseline, config), config.afterHours.baselinePercentile)
  }

  /** The baseline is 0 without a positive selected power; otherwise it is
      positive and above `minPowerThreshold`. With a non-negative threshold
      every selected power is positive and the baseline is their plain
      percentile. */
  lemma BaselineKwFacts(baseline: seq<Reading>, config: Config)
    requires BaselinePercentileValid(baseline, config)
    ensures var powers := BaselineAfterHoursPowers(baseline, config);
      var kw := BaselineKw(baseline, config);
      && kw >= 0.0
      && (Filter(powers, Positive) == [] ==> kw == 0.0)
      && (Filter(powers, Positive) != [] ==> kw > 0.0 && kw > config.afterHours.minPowerThreshold)
      && (config.afterHours.minPowerThreshold >= 0.0 ==>
            Filter(powers, Positive) == powers && kw == Percentile(powers, config.afterHours.baselinePercentile))
  {
    var powers := BaselineAfterHoursPowers(baseline, config);
    var threshold := config.afterHours.minPowerThreshold;
    FilterElements(Map(Filter(baseline, AfterHours(config)), PowerOf), Above(threshold));
    assert BaselineKw(baseline, config) == NonZeroPercentile(powers, config.afterHours.baselinePercentile);
    if Filter(powers, Positive) != [] {
      var x :| x in powers && x <= BaselineKw(baseline, config);
      assert x > threshold;
    }
    if threshold >= 0.0 {
      FilterAll(powers, Positive);
    }
  }

  /** No after-hours baseline reading above the threshold gives a zero
      baseline. */
  lemma NoBaselinePowersGiveZero(baseline: seq<Reading>, config: Config)
    requires forall r :: r in baseline && AfterHours(config)(r) ==> PowerOf(r) <= config.afterHours.minPowerThreshold
    ensures BaselineAfterHoursPowers(baseline, config) == []
    ensures BaselinePercentileValid(baseline, config) && BaselineKw(baseline, config) == 0.0
  {
    var selected := Filter(baseline, AfterHours(config));
    FilterElements(baseline, AfterHours(config));
    forall p | p in Map(selected, PowerOf) ensures !Above(config.afterHours.minPowerThreshold)(p) {
      var i :| 0 <= i < |selected| && Map(selected, PowerOf)[i] == p;
      assert selected[i] in selected;
    }
    FilterNone(Map(selected, PowerOf), Above(config.afterHours.minPowerThreshold));
  }

  // ---------------------------------------------------------------------
  // calculate_after_hours_waste

  /** A report reading outside business hours, with its power read. */
  datatype AfterHoursReading = AfterHoursReading(ts: TsValue, power: real)

  function ToAfterHoursReading(r: Reading): AfterHoursReading
  {
    AfterHoursReading(r.ts, PowerOf(r))
  }

  /** The report readings outside business hours, in input order. */
  function ReportAfterHours(readings: seq<Reading>, config: Config): seq<AfterHoursReading>
  {
    Map(Filter(readings, AfterHours(config)), ToAfterHoursReading)
  }

  /** `max(0, power - baseline_kw)` */
  function Excess(power: real, baselineKw: real): (e: real)
    ensures e >= 0.0 && e >= power - baselineKw
    ensures e == 0.0 || e == power - baselineKw
  {
    if power - baselineKw > 0.0 then power - baselineKw else 0.0
  }

  /** The energy of a constant power held for some hours. */
  function Energy(kw: real, hours: real): real
  {
    kw * hours
  }

  /** The price of some energy at a rate per kWh. */
  function Cost(kwh: real, rate: real): real
  {
    kwh * rate
  }

  function KwhOf(intervalHours: real): AfterHoursReading -> real
  {
    (x: AfterHoursReading) => Energy(x.power, intervalHours)
  }

  function ExcessKwhOf(baselineKw: real, intervalHours: real): AfterHoursReading -> real
  {
    (x: AfterHoursReading) => Energy(Excess(x.power, baselineKw), intervalHours)
  }

  /** An entry of `excessIntervals`. */
  datatype ExcessInterval = ExcessInterval(ts: TsValue, power: real, baselinePower: real, excessKw: real,
                                           excessKwh: real)

  function Exceeds(baselineKw: real, threshold: real): AfterHoursReading -> bool
  {
    (x: AfterHoursReading) => Excess(x.power, baselineKw) > threshold
  }

  function ToExcessInterval(baselineKw: real, intervalHours: real): AfterHoursReading -> ExcessInterval
  {
    (x: AfterHoursReading) =>
      ExcessInterval(x.ts, x.power, baselineKw, Excess(x.power, baselineKw), Energy(Excess(x.power, baselineKw), intervalHours))
  }

  /** Every interval whose excess is above the threshold, in input order. */
  function ExcessIntervalsOf(report: seq<AfterHoursReading>, baselineKw: real, intervalHours: real, threshold: real)
    : seq<ExcessInterval>
  {
    Map(Filter(report, Exceeds(baselineKw, threshold)), ToExcessInterval(baselineKw, intervalHours))
  }

  /** One channel's result. `excessAfterHoursKwh` is both
      `thisWeek.excessAfterHoursKwh` and `impact.excessKwh`. */
  datatype WasteResult = WasteResult(
    channelId: int, channelName: string, baselineKw: real,
    totalAfterHoursKwh: real, excessAfterHoursKwh: real,
    avgPowerKw: real, maxPowerKw: real, minPowerKw: real, intervals: nat,
    excessCost: real, percentOfTotal: real,
    excessIntervals: seq<ExcessInterval>, isSignificant: bool)

  /** `excess / total * 100` when there was after-hours consumption. */
  function PercentOfTotal(excess: real, total: real): real
  {
    if total > 0.0 then excess / total * 100.0 else 0.0
  }

  /** The result of a channel from its baseline power and its after-hours
      report readings. */
  function WasteFrom(channel: Channel, kw: real, report: seq<AfterHoursReading>, config: Config, intervalHours: real)
    : WasteResult
  {
    var total := Sum(Map(report, KwhOf(intervalHours)));
    var excess := Sum(Map(report, ExcessKwhOf(kw, intervalHours)));
    var stats := CalculateStats(Map(report, (x: AfterHoursReading) => x.power));
    WasteResult(
      channel.channelId, channel.channelName, kw, total, excess,
      stats.mean, stats.max, stats.min, |report|,
      Cost(excess, config.tariff.defaultRate), PercentOfTotal(excess, total),
      Take(ExcessIntervalsOf(report, kw, intervalHours, config.afterHours.minPowerThreshold), 10),
      excess >= config.afterHours.minExcessKwh)
  }

  /** What `calculate_after_hours_waste` returns; `round` is taken as exact. */
  function WasteOf(channel: Channel, baseline: seq<Reading>, config: Config, intervalSeconds: int): WasteResult
    requires HasAllDays(config) && BaselinePercentileValid(baseline, config)
  {
    WasteFrom(channel, BaselineKw(baseline, config), ReportAfterHours(channel.readings, config), config,
              GetIntervalHours(intervalSeconds))
  }

  lemma KwhPrefix(report: seq<AfterHoursReading>, i: nat, intervalHours: real)
    requires i < |report|
    ensures Sum(Map(report[..i + 1], KwhOf(intervalHours)))
         == Sum(Map(report[..i], KwhOf(intervalHours))) + Energy(report[i].power, intervalHours)
  {
    SumMapPrefix(report, i, KwhOf(intervalHours));
  }

  lemma ExcessKwhPrefix(report: seq<AfterHoursReading>, i: nat, baselineKw: real, intervalHours: real)
    requires i < |report|
    ensures Sum(Map(report[..i + 1], ExcessKwhOf(baselineKw, intervalHours)))
         == Sum(Map(report[..i], ExcessKwhOf(baselineKw, intervalHours)))
            + Energy(Excess(report[i].power, baselineKw), intervalHours)
  {
    SumMapPrefix(report, i, ExcessKwhOf(baselineKw, intervalHours));
  }

  lemma ExcessIntervalsPrefix(report: seq<AfterHoursReading>, i: nat, baselineKw: real, intervalHours: real,
                              threshold: real)
    requires i < |report|
    ensures var x, excess := report[i], Excess(report[i].power, baselineKw);
      ExcessIntervalsOf(report[..i + 1], baselineKw, intervalHours, threshold)
      == ExcessIntervalsOf(report[..i], baselineKw, intervalHours, threshold)
         + (if excess > threshold then [ExcessInterval(x.ts, x.power, baselineKw, excess, Energy(excess, intervalHours))]
            else [])
  {
    MapFilterPrefix(report, i, Exceeds(baselineKw, threshold), ToExcessInterval(baselineKw, intervalHours));
  }

  /** The accumulation loop of `calculate_after_hours_waste`: the
      after-hours and excess energy, and the intervals whose excess is above
      the threshold. */
  method AccumulateAfterHours(report: seq<AfterHoursReading>, baselineKw: real, intervalHours: real, threshold: real)
    returns (total: real, excessTotal: real, excessIntervals: seq<ExcessInterval>)
    ensures total == Sum(Map(report, KwhOf(intervalHours)))
    ensures excessTotal == Sum(Map(report, ExcessKwhOf(baselineKw, intervalHours)))
    ensures excessIntervals == ExcessIntervalsOf(report, baselineKw, intervalHours, threshold)
  {
    total, excessTotal := 0.0, 0.0;
    excessIntervals := [];
    for i := 0 to |report|
      invariant total == Sum(Map(report[..i], KwhOf(intervalHours)))
      invariant excessTotal == Sum(Map(report[..i], ExcessKwhOf(baselineKw, intervalHours)))
      invariant excessIntervals == ExcessIntervalsOf(report[..i], baselineKw, intervalHours, threshold)
    {
      var reading := report[i];
      KwhPrefix(report, i, intervalHours);
      ExcessKwhPrefix(report, i, baselineKw, intervalHours);
      ExcessIntervalsPrefix(report, i, baselineKw, intervalHours, threshold);
      total := total + Energy(reading.power, intervalHours);
      var excess := Excess(reading.power, baselineKw);
      var excessKwh := Energy(excess, intervalHours);
      excessTotal := excessTotal + excessKwh;
      if excess > threshold {
        excessIntervals := excessIntervals + [ExcessInterval(reading.ts, reading.power, baselineKw, excess, excessKwh)];
      }
    }
    assert report[..|report|] == report;
  }

  /** `calculate_after_hours_waste` */
  method CalculateAfterHoursWaste(channel: Channel, baseline: seq<Reading>, config: Config, intervalSeconds: int)
    returns (result: WasteResult)
    requires HasAllDays(config) && BaselinePercentileValid(baseline, config)
    ensures result == WasteOf(channel, baseline, config, intervalSeconds)
  {
    var intervalHours := GetIntervalHours(intervalSeconds);
    var baselineKw := BaselineKw(baseline, config);
    var report := ReportAfterHours(channel.readings, config);
    var total, excessTotal, excessIntervals :=
      AccumulateAfterHours(report, baselineKw, intervalHours, config.afterHours.minPowerThreshold);
    var stats := CalculateStats(Map(report, (x: AfterHoursReading) => x.power));
    result := WasteResult(
      channel.channelId, channel.channelName, baselineKw, total, excessTotal,
      stats.mean, stats.max, stats.min, |report|,
      Cost(excessTotal, config.tariff.defaultRate), PercentOfTotal(excessTotal, total),
      Take(excessIntervals, 10), excessTotal >= config.afterHours.minExcessKwh);
  }

  // ---------------------------------------------------------------------
  // Properties of one channel's result

  lemma EnergyNonNegative(kw: real, hours: real)
    requires kw >= 0.0 && hours >= 0.0
    ensures Energy(kw, hours) >= 0.0
  {
  }

  lemma CostNonNegative(kwh: real, rate: real)
    requires kwh >= 0.0 && rate >= 0.0
    ensures Cost(kwh, rate) >= 0.0
  {
  }

  /** Two non-positive powers followed by three positive ones keep only
      the last three. */
  lemma FilterPositiveTail(a: real, b: real, c: real, d: real, e: real)
    requires a <= 0.0 && b <= 0.0 && c > 0.0 && d > 0.0 && e > 0.0
    ensures Filter([a, b, c, d, e], Positive) == [c, d, e]
  {
    assert [a, b, c, d, e][..4] == [a, b, c, d];
    assert [a, b, c, d][..3] == [a, b, c];
    assert [a, b, c][..2] == [a, b];
    assert [a, b][..1] == [a];
    assert [a][..0] == [];
    assert Filter([a], Positive) == [];
    assert Filter([a, b], Positive) == [];
    assert Filter([a, b, c], Positive) == [c];
    assert Filter([a, b, c, d], Positive) == [c, d];
  }

  /** The 5th percentile of three ascending powers lies a tenth of the way
      from the first to the second. */
  lemma FifthPercentileOfThree(x: real, y: real, z: real)
    requires x <= y <= z
    ensures Percentile([x, y, z], 5.0) == x + 0.1 * (y - x)
  {
    assert Ascending([x, y, z]);
    assert Rank(5.0, 3) == 0.1;
    PercentileBetween([x, y, z], 5.0, 0, 0.1);
  }

  /** Baseline powers of 0, 0, 5, 6 and 7 kW: the 5th percentile of the
      positive ones (5, 6, 7) lies at rank 0.1 and is 5.1 kW. */
  lemma LowBaselinePercentile()
    ensures NonZeroPercentile([0.0, 0.0, 5.0, 6.0, 7.0], 5.0) == 5.1
  {
    FilterPositiveTail(0.0, 0.0, 5.0, 6.0, 7.0);
    FifthPercentileOfThree(5.0, 6.0, 7.0);
  }

  /** Over that 5.1 kW baseline, a 20 kW after-hours reading held for 15
      minutes is 3.725 kWh of excess. */
  lemma LowBaselineExcess()
    ensures Energy(Excess(20.0, NonZeroPercentile([0.0, 0.0, 5.0, 6.0, 7.0], 5.0)), GetIntervalHours(900)) == 3.725
  {
    LowBaselinePercentile();
    assert GetIntervalHours(900) == 0.25;
  }

  lemma EnergyMonotone(a: real, b: real, hours: real)
    requires a <= b && hours >= 0.0
    ensures Energy(a, hours) <= Energy(b, hours)
  {
    EnergyNonNegative(b - a, hours);
    assert (b - a) * hours == b * hours - a * hours;
  }

  /** Every after-hours report reading is the reading of an after-hours
      channel reading. */
  lemma ReportAfterHoursElements(readings: seq<Reading>, config: Config, x: AfterHoursReading)
    requires x in ReportAfterHours(readings, config)
    ensures exists r :: r in readings && AfterHours(config)(r) && x == ToAfterHoursReading(r)
  {
    MapFilterElements(readings, AfterHours(config), ToAfterHoursReading, x);
  }

  /** The excess energy is never negative. */
  lemma ExcessNonNegativeFrom(channel: Channel, kw: real, report: seq<AfterHoursReading>, config: Config,
                              intervalHours: real)
    requires intervalHours >= 0.0
    ensures WasteFrom(channel, kw, report, config, intervalHours).excessAfterHoursKwh >= 0.0
  {
    var s := Map(report, ExcessKwhOf(kw, intervalHours));
    forall i | 0 <= i < |s| ensures s[i] >= 0.0 {
      EnergyNonNegative(Excess(report[i].power, kw), intervalHours);
    }
    SumNonNegative(s);
  }

  lemma ExcessNonNegative(channel: Channel, baseline: seq<Reading>, config: Config, intervalSeconds: int)
    requires HasAllDays(config) && BaselinePercentileValid(baseline, config) && intervalSeconds >= 0
    ensures WasteOf(channel, baseline, config, intervalSeconds).excessAfterHoursKwh >= 0.0
  {
    ExcessNonNegativeFrom(channel, BaselineKw(baseline, config), ReportAfterHours(channel.readings, config), config,
                          GetIntervalHours(intervalSeconds));
  }

  /** With non-negative powers and baseline the excess never exceeds the
      after-hours consumption. */
  lemma ExcessAtMostTotalFrom(channel: Channel, kw: real, report: seq<AfterHoursReading>, config: Config,
                              intervalHours: real)
    requires intervalHours >= 0.0 && kw >= 0.0
    requires forall i :: 0 <= i < |report| ==> report[i].power >= 0.0
    ensures var r := WasteFrom(channel, kw, report, config, intervalHours);
      r.excessAfterHoursKwh <= r.totalAfterHoursKwh
  {
    forall i | 0 <= i < |report|
      ensures ExcessKwhOf(kw, intervalHours)(report[i]) <= KwhOf(intervalHours)(report[i])
    {
      EnergyMonotone(Excess(report[i].power, kw), report[i].power, intervalHours);
    }
    SumMonotone(Map(report, ExcessKwhOf(kw, intervalHours)), Map(report, KwhOf(intervalHours)));
  }

  /** For non-negative after-hours powers the excess energy lies between 0
      and the after-hours consumption. */
  lemma ExcessAtMostTotal(channel: Channel, baseline: seq<Reading>, config: Config, intervalSeconds: int)
    requires HasAllDays(config) && BaselinePercentileValid(baseline, config) && intervalSeconds >= 0
    requires forall r :: r in channel.readings && AfterHours(config)(r) ==> PowerOf(r) >= 0.0
    ensures var r := WasteOf(channel, baseline, config, intervalSeconds);
      0.0 <= r.excessAfterHoursKwh <= r.totalAfterHoursKwh
  {
    var kw := BaselineKw(baseline, config);
    var report := ReportAfterHours(channel.readings, config);
    var intervalHours := GetIntervalHours(intervalSeconds);
    assert kw >= 0.0 by {
      BaselineKwFacts(baseline, config);
    }
    forall i | 0 <= i < |report| ensures report[i].power >= 0.0 {
      ReportAfterHoursElements(channel.readings, config, report[i]);
    }
    ExcessNonNegativeFrom(channel, kw, report, config, intervalHours);
    ExcessAtMostTotalFrom(channel, kw, report, config, intervalHours);
  }

  /** The listed excess intervals are the first ten of those whose excess is
      above the threshold, in input order, each taken from a report
      reading. */
  lemma ExcessIntervalsFrom(channel: Channel, kw: real, report: seq<AfterHoursReading>, config: Config,
                            intervalHours: real, e: ExcessInterval)
    ensures var r := WasteFrom(channel, kw, report, config, intervalHours);
      var all := ExcessIntervalsOf(report, kw, intervalHours, config.afterHours.minPowerThreshold);
      && |r.excessIntervals| == (if |all| < 10 then |all| else 10)
      && r.excessIntervals == all[..|r.excessIntervals|]
      && (e in r.excessIntervals ==>
            && e.baselinePower == kw
            && e.excessKw > config.afterHours.minPowerThreshold
            && e.excessKw == Excess(e.power, kw)
            && e.excessKwh == Energy(e.excessKw, intervalHours)
            && AfterHoursReading(e.ts, e.power) in report)
  {
    var threshold := config.afterHours.minPowerThreshold;
    var r := WasteFrom(channel, kw, report, config, intervalHours);
    var all := ExcessIntervalsOf(report, kw, intervalHours, threshold);
    if e in r.excessIntervals {
      assert e in all;
      MapFilterElements(report, Exceeds(kw, threshold), ToExcessInterval(kw, intervalHours), e);
    }
  }

  /** The listed excess intervals are the first ten of those whose excess is
      above `minPowerThreshold`, in input order, each taken from an
      after-hours reading of the channel. */
  lemma ExcessIntervalsFacts(channel: Channel, baseline: seq<Reading>, config: Config, intervalSeconds: int,
                             e: ExcessInterval)
    requires HasAllDays(config) && BaselinePercentileValid(baseline, config)
    ensures var r := WasteOf(channel, baseline, config, intervalSeconds);
      var all := ExcessIntervalsOf(ReportAfterHours(channel.readings, config), r.baselineKw,
                                   GetIntervalHours(intervalSeconds), config.afterHours.minPowerThreshold);
      && |r.excessIntervals| == (if |all| < 10 then |all| else 10)
      && r.excessIntervals == all[..|r.excessIntervals|]
      && (e in r.excessIntervals ==>
            && e.baselinePower == r.baselineKw
            && e.excessKw > config.afterHours.minPowerThreshold
            && e.excessKw == Excess(e.power, r.baselineKw)
            && e.excessKwh == Energy(e.excessKw, GetIntervalHours(intervalSeconds))
            && exists x :: x in channel.readings && AfterHours(config)(x) && x.ts == e.ts && PowerOf(x) == e.power)
  {
    var report := ReportAfterHours(channel.readings, config);
    ExcessIntervalsFrom(channel, BaselineKw(baseline, config), report, config, GetIntervalHours(intervalSeconds), e);
    if e in WasteOf(channel, baseline, config, intervalSeconds).excessIntervals {
      ReportAfterHoursElements(channel.readings, config, AfterHoursReading(e.ts, e.power));
    }
  }

  /** Report readings never above the baseline waste nothing, list no
      interval under a non-negative threshold, and are not significant when
      `minExcessKwh` is positive. */
  lemma NothingAboveBaselineFrom(channel: Channel, kw: real, report: seq<AfterHoursReading>, config: Config,
                                 intervalHours: real)
    requires forall i :: 0 <= i < |report| ==> report[i].power <= kw
    ensures var r := WasteFrom(channel, kw, report, config, intervalHours);
      && r.excessAfterHoursKwh == 0.0
      && (config.afterHours.minPowerThreshold >= 0.0 ==> r.excessIntervals == [])
      && (config.afterHours.minExcessKwh > 0.0 ==> !r.isSignificant)
  {
    var s := Map(report, ExcessKwhOf(kw, intervalHours));
    SumOfConstant(s, 0.0);
    if config.afterHours.minPowerThreshold >= 0.0 {
      forall x | x in report ensures !Exceeds(kw, config.afterHours.minPowerThreshold)(x) {
        var i :| 0 <= i < |report| && report[i] == x;
      }
      FilterNone(report, Exceeds(kw, config.afterHours.minPowerThreshold));
    }
  }

  /** A channel whose after-hours power never exceeds the baseline wastes
      nothing, lists no interval with a non-negative threshold, and is not
      significant when `minExcessKwh` is positive. */
  lemma NothingAboveBaseline(channel: Channel, baseline: seq<Reading>, config: Config, intervalSeconds: int)
    requires HasAllDays(config) && BaselinePercentileValid(baseline, config)
    requires forall r :: r in channel.readings && AfterHours(config)(r) ==> PowerOf(r) <= BaselineKw(baseline, config)
    ensures var r := WasteOf(channel, baseline, config, intervalSeconds);
      && r.excessAfterHoursKwh == 0.0
      && (config.afterHours.minPowerThreshold >= 0.0 ==> r.excessIntervals == [])
      && (config.afterHours.minExcessKwh > 0.0 ==> !r.isSignificant)
  {
    var kw := BaselineKw(baseline, config);
    var report := ReportAfterHours(channel.readings, config);
    forall i | 0 <= i < |report| ensures report[i].power <= kw {
      ReportAfterHoursElements(channel.readings, config, report[i]);
    }
    NothingAboveBaselineFrom(channel, kw, report, config, GetIntervalHours(intervalSeconds));
  }

  /** The average, minimum and maximum describe the report powers, all 0
      when there are none. */
  lemma WastePowerStats(channel: Channel, kw: real, report: seq<AfterHoursReading>, config: Config,
                        intervalHours: real)
    ensures var r := WasteFrom(channel, kw, report, config, intervalHours);
      var powers := Map(report, (x: AfterHoursReading) => x.power);
      && r.intervals == |report|
      && (r.intervals == 0 ==> r.avgPowerKw == 0.0 && r.maxPowerKw == 0.0 && r.minPowerKw == 0.0)
      && (r.intervals > 0 ==>
            && r.minPowerKw in powers && r.maxPowerKw in powers
            && r.minPowerKw <= r.avgPowerKw <= r.maxPowerKw
            && r.avgPowerKw == Sum(powers) / |powers| as real)
  {
  }

  /** Only readings outside business hours count, each once, and the
      statistics describe their powers. */
  lemma WasteCountsAfterHours(channel: Channel, baseline: seq<Reading>, config: Config, intervalSeconds: int)
    requires HasAllDays(config) && BaselinePercentileValid(baseline, config)
    ensures var r := WasteOf(channel, baseline, config, intervalSeconds);
      var powers := Map(ReportAfterHours(channel.readings, config), (x: AfterHoursReading) => x.power);
      && r.intervals == |Filter(channel.readings, AfterHours(config))|
      && r.channelId == channel.channelId && r.channelName == channel.channelName
      && (r.intervals > 0 ==> r.minPowerKw <= r.avgPowerKw <= r.maxPowerKw && r.avgPowerKw == Sum(powers) / |powers| as real)
      && (r.isSignificant <==> r.excessAfterHoursKwh >= config.afterHours.minExcessKwh)
  {
    WastePowerStats(channel, BaselineKw(baseline, config), ReportAfterHours(channel.readings, config), config,
                    GetIntervalHours(intervalSeconds));
  }

  /** `percentOfTotal` is the excess as a percentage of the after-hours
      consumption, and 0 without consumption. */
  lemma PercentOfTotalScales(excess: real, total: real)
    ensures total > 0.0 ==> PercentOfTotal(excess, total) * total == excess * 100.0
    ensures total <= 0.0 ==> PercentOfTotal(excess, total) == 0.0
  {
  }

  // ---------------------------------------------------------------------
  // analyze_after_hours_waste

  /** A channel with a usable baseline can take that baseline's
      percentile. */
  predicate BaselineValid(c: Channel, baselines: seq<BaselineData>, config: Config)
  {
    var b := UsableBaseline(baselines, c.channelId);
    b.Some? ==> BaselinePercentileValid(b.value, config)
  }

  predicate BaselinesValid(channels: seq<Channel>, baselines: seq<BaselineData>, config: Config)
  {
    forall c :: c in channels ==> BaselineValid(c, baselines, config)
  }

  /** The result of one channel when it is kept. */
  function KeptWasteResult(c: Channel, baselines: seq<BaselineData>, config: Config, intervalSeconds: int)
    : seq<WasteResult>
    requires HasAllDays(config)
    requires BaselineValid(c, baselines, config)
  {
    var b := UsableBaseline(baselines, c.channelId);
    if b.None? then []
    else
      var r := WasteOf(c, b.value, config, intervalSeconds);
      if r.isSignificant then [r] else []
  }

  /** The significant results in channel order; channels without a usable
      baseline are skipped. */
  function KeptWasteResults(channels: seq<Channel>, baselines: seq<BaselineData>, config: Config, intervalSeconds: int)
    : (r: seq<WasteResult>)
    requires HasAllDays(config) && BaselinesValid(channels, baselines, config)
    ensures |r| <= |channels|
  {
    if |channels| == 0 then []
    else
      var p := channels[..|channels| - 1];
      assert BaselinesValid(p, baselines, config) && Last(channels) in channels by {
        assert forall c :: c in p ==> c in channels;
      }
      KeptWasteResults(p, baselines, config, intervalSeconds)
        + KeptWasteResult(Last(channels), baselines, config, intervalSeconds)
  }

  lemma BaselinesValidPrefix(channels: seq<Channel>, i: nat, baselines: seq<BaselineData>, config: Config)
    requires HasAllDays(config) && BaselinesValid(channels, baselines, config) && i <= |channels|
    ensures BaselinesValid(channels[..i], baselines, config)
  {
    assert forall c :: c in channels[..i] ==> c in channels;
  }

  lemma KeptWasteResultsSnoc(channels: seq<Channel>, i: nat, baselines: seq<BaselineData>, config: Config,
                             intervalSeconds: int)
    requires HasAllDays(config) && BaselinesValid(channels, baselines, config) && i < |channels|
    ensures BaselinesValid(channels[..i], baselines, config) && BaselinesValid(channels[..i + 1], baselines, config)
    ensures KeptWasteResults(channels[..i + 1], baselines, config, intervalSeconds)
         == KeptWasteResults(channels[..i], baselines, config, intervalSeconds)
            + KeptWasteResult(channels[i], baselines, config, intervalSeconds)
  {
    BaselinesValidPrefix(channels, i, baselines, config);
    BaselinesValidPrefix(channels, i + 1, baselines, config);
    assert channels[..i + 1][..i] == channels[..i];
  }

  /** Every kept result is significant and is the result of one of the
      channels against its usable baseline. */
  lemma KeptWasteResultFacts(c: Channel, baselines: seq<BaselineData>, config: Config, intervalSeconds: int,
                             r: WasteResult)
    requires HasAllDays(config)
    requires BaselineValid(c, baselines, config)
    requires r in KeptWasteResult(c, baselines, config, intervalSeconds)
    ensures r.isSignificant && UsableBaseline(baselines, c.channelId).Some?
    ensures r == WasteOf(c, UsableBaseline(baselines, c.channelId).value, config, intervalSeconds)
  {
  }

  lemma {:induction false} KeptWasteResultsFacts(channels: seq<Channel>, baselines: seq<BaselineData>, config: Config,
                                                intervalSeconds: int, r: WasteResult)
    requires HasAllDays(config) && BaselinesValid(channels, baselines, config)
    requires r in KeptWasteResults(channels, baselines, config, intervalSeconds)
    ensures r.isSignificant
    ensures exists c :: (c in channels && UsableBaseline(baselines, c.channelId).Some?
      && r == WasteOf(c, UsableBaseline(baselines, c.channelId).value, config, intervalSeconds))
  {
    var n := |channels| - 1;
    var p := channels[..n];
    BaselinesValidPrefix(channels, n, baselines, config);
    assert KeptWasteResults(channels, baselines, config, intervalSeconds)
        == KeptWasteResults(p, baselines, config, intervalSeconds)
           + KeptWasteResult(channels[n], baselines, config, intervalSeconds);
    if r in KeptWasteResults(p, baselines, config, intervalSeconds) {
      KeptWasteResultsFacts(p, baselines, config, intervalSeconds, r);
      var c :| c in p && UsableBaseline(baselines, c.channelId).Some?
        && r == WasteOf(c, UsableBaseline(baselines, c.channelId).value, config, intervalSeconds);
      assert c in channels;
    } else {
      assert channels[n] in channels;
      KeptWasteResultFacts(channels[n], baselines, config, intervalSeconds, r);
    }
  }

  /** `results.sort(key=lambda r: r['impact']['excessKwh'], reverse=True)` */
  function ByExcessDescending(r: WasteResult): Key
  {
    Key(-r.excessAfterHoursKwh, 0.0)
  }

  function ExcessKwhs(results: seq<WasteResult>): seq<real>
  {
    Map(results, (r: WasteResult) => r.excessAfterHoursKwh)
  }

  function ExcessCosts(results: seq<WasteResult>): seq<real>
  {
    Map(results, (r: WasteResult) => r.excessCost)
  }

  /** An entry of `topContributorsChart`. */
  datatype Contributor = Contributor(name: string, excessKwh: real, cost: real)

  function ContributorOf(r: WasteResult): Contributor
  {
    Contributor(r.channelName, r.excessAfterHoursKwh, r.excessCost)
  }

  /** An entry of `afterHoursProfile`. */
  datatype ProfileHour = ProfileHour(hour: int, avgPowerKw: real)

  function AvgPowers(results: seq<WasteResult>): seq<real>
  {
    Map(results, (r: WasteResult) => r.avgPowerKw)
  }

  /** `total / max(1, n)` over the results' average powers. */
  function ProfileAverage(results: seq<WasteResult>): real
  {
    Sum(AvgPowers(results)) / (if |results| > 1 then |results| else 1) as real
  }

  /** The profile average is the mean of the average powers: the sum is 0
      when there are none. */
  lemma ProfileAverageIsMean(results: seq<WasteResult>)
    ensures ProfileAverage(results) == CalculateStats(AvgPowers(results)).mean
  {
  }

  /** `generate_after_hours_profile`: 24 hours, each carrying the mean of the
      results' average powers (0 without results). */
  method GenerateAfterHoursProfile(results: seq<WasteResult>) returns (profile: seq<ProfileHour>)
    ensures |profile| == 24
    ensures forall h :: 0 <= h < 24 ==> profile[h] == ProfileHour(h, CalculateStats(AvgPowers(results)).mean)
  {
    profile := [];
    for hour := 0 to 24
      invariant |profile| == hour
      invariant forall h :: 0 <= h < hour ==> profile[h] == ProfileHour(h, ProfileAverage(results))
    {
      var totalKw := Sum(AvgPowers(results));
      var n := if |results| > 1 then |results| else 1;
      profile := profile + [ProfileHour(hour, totalKw / n as real)];
    }
    ProfileAverageIsMean(results);
  }

  datatype WasteAnalysis = WasteAnalysis(
    topMeters: seq<WasteResult>, allMeters: seq<WasteResult>,
    totalMetersWithExcess: nat, totalExcessKwh: real, totalExcessCost: real, estimatedAnnualCost: real,
    topContributors: seq<Contributor>, afterHoursProfile: seq<ProfileHour>)

  /** `analyze_after_hours_waste`; `round` is taken as exact. */
  method AnalyzeAfterHoursWaste(channels: seq<Channel>, baselines: seq<BaselineData>, config: Config,
                                intervalSeconds: int) returns (analysis: WasteAnalysis)
    requires HasAllDays(config) && BaselinesValid(channels, baselines, config)
    ensures var results := SortBy(KeptWasteResults(channels, baselines, config, intervalSeconds), ByExcessDescending);
      && analysis.allMeters == results
      && analysis.topMeters == Take(results, 10)
      && analysis.totalMetersWithExcess == |results|
      && analysis.totalExcessKwh == Sum(ExcessKwhs(results))
      && analysis.totalExcessCost == Sum(ExcessCosts(results))
      && analysis.estimatedAnnualCost == analysis.totalExcessCost * 52.0
      && analysis.topContributors == Map(Take(results, 10), ContributorOf)
      && |analysis.afterHoursProfile| == 24
      && forall h :: 0 <= h < 24 ==>
           analysis.afterHoursProfile[h] == ProfileHour(h, CalculateStats(AvgPowers(results)).mean)
  {
    var results: seq<WasteResult> := [];
    for i := 0 to |channels|
      invariant BaselinesValid(channels[..i], baselines, config)
      invariant results == KeptWasteResults(channels[..i], baselines, config, intervalSeconds)
    {
      var channel := channels[i];
      KeptWasteResultsSnoc(channels, i, baselines, config, intervalSeconds);
      assert BaselineValid(channel, baselines, config) by {
        assert channel in channels;
      }
      var baseline := FindBaseline(baselines, channel.channelId);
      if baseline.None? || |baseline.value.readings| == 0 {
        continue;
      }
      var result := CalculateAfterHoursWaste(channel, baseline.value.readings, config, intervalSeconds);
      if result.isSignificant {
        results := results + [result];
      }
    }
    assert channels[..|channels|] == channels;
    results := SortBy(results, ByExcessDescending);
    var totalExcessKwh := Sum(ExcessKwhs(results));
    var totalExcessCost := Sum(ExcessCosts(results));
    var profile := GenerateAfterHoursProfile(results);
    analysis := WasteAnalysis(Take(results, 10), results, |results|, totalExcessKwh, totalExcessCost,
                              totalExcessCost * 52.0, Map(Take(results, 10), ContributorOf), profile);
  }

  /** All meters are the significant results, reordered by non-increasing
      excess; the top meters are the first ten of them, and no meter left
      out of the top has more excess than one in it. */
  lemma WasteAnalysisOrder(kept: seq<WasteResult>)
    ensures var s := SortBy(kept, ByExcessDescending);
      var top := Take(s, 10);
      && multiset(s) == multiset(kept)
      && (forall i, j :: 0 <= i < j < |s| ==> s[i].excessAfterHoursKwh >= s[j].excessAfterHoursKwh)
      && |top| == (if |kept| < 10 then |kept| else 10)
      && (forall i, j :: 0 <= i < |top| <= j < |s| ==> s[j].excessAfterHoursKwh <= top[i].excessAfterHoursKwh)
  {
    var s := SortBy(kept, ByExcessDescending);
    SortBySorted(kept, ByExcessDescending);
    forall i, j | 0 <= i < j < |s| ensures s[i].excessAfterHoursKwh >= s[j].excessAfterHoursKwh {
      assert !Before(ByExcessDescending(s[j]), ByExcessDescending(s[i]));
    }
  }
  /** Every meter of the analysis is significant: its excess reaches
      `minExcessKwh`, and it is the result of one of the channels. */
  lemma AllMetersSignificant(channels: seq<Channel>, baselines: seq<BaselineData>, config: Config,
                             intervalSeconds: int, r: WasteResult)
    requires HasAllDays(config) && BaselinesValid(channels, baselines, config)
    requires r in SortBy(KeptWasteResults(channels, baselines, config, intervalSeconds), ByExcessDescending)
    ensures r.isSignificant && r.excessAfterHoursKwh >= config.afterHours.minExcessKwh
    ensures exists c :: (c in channels && UsableBaseline(baselines, c.channelId).Some?
      && r == WasteOf(c, UsableBaseline(baselines, c.channelId).value, config, intervalSeconds))
  {
    var kept := KeptWasteResults(channels, baselines, config, intervalSeconds);
    assert r in kept by {
      assert r in multiset(SortBy(kept, ByExcessDescending));
    }
    KeptWasteResultsFacts(channels, baselines, config, intervalSeconds, r);
    var c :| c in channels && UsableBaseline(baselines, c.channelId).Some?
      && r == WasteOf(c, UsableBaseline(baselines, c.channelId).value, config, intervalSeconds);
    WasteCountsAfterHours(c, UsableBaseline(baselines, c.channelId).value, config, intervalSeconds);
  }
}
