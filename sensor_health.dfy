/** Sensor and communications health: missing-data gaps, low completeness,
    flatlined sensors and stale meters, per channel and for a site, and the
    per-type summary of the issues found. */
module SensorHealth {
  import opened Seqs
  import opened StableSort
  import opened DateUtils
  import opened StatsUtils
  import opened ReportConfig
  import opened Readings

  // ---------------------------------------------------------------------
  // Issues

  datatype IssueType = MissingData | LowCompleteness | Flatline | StaleData

  datatype Severity = High | Medium | Low

  /** The type-specific fields of an issue. The formatted `description`,
      `duration`, `completeness` and `hoursSince` strings are not modelled;
      the numbers they are formatted from are. */
  datatype Details =
    | GapDetails(start: DateTime, end: DateTime, missingIntervals: int, actualInterval: int)
    | CompletenessDetails(completeness: real, missingCount: int)
    | FlatlineDetails(flatStart: Option<TsValue>, flatEnd: Option<TsValue>, meanPower: real, variance: real)
    | StaleDetails(lastReading: TsValue, hoursSince: real)

  datatype HealthIssue = HealthIssue(issueType: IssueType, severity: Severity,
                                     channelId: int, channelName: string, details: Details)

  /** Every issue of a channel names that channel. */
  predicate AboutChannel(issues: seq<HealthIssue>, c: Channel)
  {
    forall i :: 0 <= i < |issues| ==>
      issues[i].channelId == c.channelId && issues[i].channelName == c.channelName
  }

  function TypeOf(issue: HealthIssue): IssueType
  {
    issue.issueType
  }

  function HasSeverity(s: Severity): HealthIssue -> bool
  {
    (issue: HealthIssue) => issue.severity == s
  }

  // ---------------------------------------------------------------------
  // 1. Missing-data gaps

  function TimeOf(r: Reading): DateTime
  {
    ParseTimestamp(r.ts)
  }

  /** A gap is reported when it misses at least `gapMultiplier` intervals. */
  function Reported(gapMultiplier: real): Gap -> bool
  {
    (g: Gap) => g.missingIntervals as real >= gapMultiplier
  }

  /** The issue of a reported gap: high when more than 10 intervals are missing. */
  function GapIssue(c: Channel): Gap -> HealthIssue
  {
    (g: Gap) => HealthIssue(MissingData, if g.missingIntervals > 10 then High else Medium,
                            c.channelId, c.channelName,
                            GapDetails(g.start, g.end, g.missingIntervals, g.actualInterval))
  }

  /** One issue per reported gap, in gap order. */
  function GapIssues(gaps: seq<Gap>, c: Channel, config: SensorHealthConfig): seq<HealthIssue>
  {
    Map(Filter(gaps, Reported(config.gapMultiplier)), GapIssue(c))
  }

  /** Gap issues are `missing_data` issues of the channel, each for a gap of
      at least `gapMultiplier` missing intervals, high exactly when more than
      10 are missing; every such gap has its issue. */
  lemma GapIssuesFacts(gaps: seq<Gap>, c: Channel, config: SensorHealthConfig)
    ensures var r := GapIssues(gaps, c, config);
      && AboutChannel(r, c)
      && (forall i :: 0 <= i < |r| ==>
            && r[i].issueType == MissingData && r[i].details.GapDetails?
            && r[i].details.missingIntervals as real >= config.gapMultiplier
            && (r[i].severity == High <==> r[i].details.missingIntervals > 10)
            && (r[i].severity == High || r[i].severity == Medium))
      && (forall g :: g in gaps && g.missingIntervals as real >= config.gapMultiplier ==>
            GapIssue(c)(g) in r)
  {
    var kept := Filter(gaps, Reported(config.gapMultiplier));
    var r := GapIssues(gaps, c, config);
    forall i | 0 <= i < |r|
      ensures r[i].details.missingIntervals as real >= config.gapMultiplier
    {
      assert kept[i] in kept;
      FilterMembership(gaps, Reported(config.gapMultiplier), kept[i]);
    }
    forall g | g in gaps && g.missingIntervals as real >= config.gapMultiplier
      ensures GapIssue(c)(g) in r
    {
      FilterMembership(gaps, Reported(config.gapMultiplier), g);
      var k :| 0 <= k < |kept| && kept[k] == g;
      assert r[k] == GapIssue(c)(g);
    }
  }

  // ---------------------------------------------------------------------
  // 2. Completeness

  /** `channel_data.get('expectedIntervals', len(readings))`. */
  function ExpectedIntervals(c: Channel): int
  {
    if c.expectedIntervals.Some? then c.expectedIntervals.value else |c.readings|
  }

  function CompletenessOf(c: Channel): real
  {
    CalculateCompleteness(|c.readings|, ExpectedIntervals(c))
  }

  /** A `low_completeness` issue exactly when completeness is below
      `100 - missingThresholdPct`; high below 50%. */
  function CompletenessIssues(c: Channel, config: SensorHealthConfig): (r: seq<HealthIssue>)
    ensures |r| <= 1
    ensures |r| == 1 <==> CompletenessOf(c) < 100.0 - config.missingThresholdPct
    ensures |r| == 1 ==>
      && r[0].issueType == LowCompleteness
      && r[0].channelId == c.channelId && r[0].channelName == c.channelName
      && (r[0].severity == High <==> CompletenessOf(c) < 50.0)
      && (r[0].severity == High || r[0].severity == Medium)
      && r[0].details == CompletenessDetails(CompletenessOf(c), ExpectedIntervals(c) - |c.readings|)
  {
    var completeness := CompletenessOf(c);
    if completeness < 100.0 - config.missingThresholdPct then
      [HealthIssue(LowCompleteness, if completeness < 50.0 then High else Medium,
                   c.channelId, c.channelName,
                   CompletenessDetails(completeness, ExpectedIntervals(c) - |c.readings|))]
    else []
  }

  /** Without `expectedIntervals` a channel with readings is complete, so it
      is never flagged (for a non-negative threshold). */
  lemma CompleteWithoutExpected(c: Channel, config: SensorHealthConfig)
    requires c.expectedIntervals.None? && |c.readings| > 0
    requires config.missingThresholdPct >= 0.0
    ensures CompletenessOf(c) == 100.0
    ensures CompletenessIssues(c, config) == []
  {
    var n := |c.readings| as real;
    CompletenessScales(|c.readings|, |c.readings|);
    assert CompletenessOf(c) * n == n * 100.0;
  }

  /** A channel without readings has completeness 0 whatever it expects, so
      it is flagged high whenever the threshold is below 100. */
  lemma EmptyChannelFlagged(c: Channel, config: SensorHealthConfig)
    requires |c.readings| == 0 && config.missingThresholdPct < 100.0
    ensures CompletenessOf(c) == 0.0
    ensures |CompletenessIssues(c, config)| == 1
    ensures CompletenessIssues(c, config)[0].severity == High
    ensures CompletenessIssues(c, config)[0].details.missingCount == ExpectedIntervals(c)
  {
    var e := ExpectedIntervals(c);
    if e != 0 {
      CompletenessScales(0, e);
      assert CompletenessOf(c) * e as real == 0.0;
    }
  }

  // ---------------------------------------------------------------------
  // 3. Flatline

  /** Python's `int(x)` on a float: truncation toward zero. */
  function Truncate(x: real): (r: int)
    ensures 0.0 <= x ==> r as real <= x < r as real + 1.0
    ensures x < 0.0 ==> r as real - 1.0 < x <= r as real
  {
    if x >= 0.0 then x.Floor else -((-x).Floor)
  }

  /** `int((flatlineHours * 3600) / interval_seconds)` readings. */
  function FlatlineWindow(flatlineHours: real, intervalSeconds: int): int
    requires intervalSeconds != 0
  {
    Truncate(flatlineHours * 3600.0 / intervalSeconds as real)
  }

  /** Low variance with a mean above 0.1 kW. */
  predicate IsFlat(e: RollingVarianceEntry, threshold: real)
  {
    e.variance < threshold && e.mean > 0.1
  }

  /** The position of the first flat entry, if any. */
  function FirstFlat(rolling: seq<RollingVarianceEntry>, threshold: real): (r: Option<nat>)
    ensures r.None? <==> forall k :: 0 <= k < |rolling| ==> !IsFlat(rolling[k], threshold)
    ensures r.Some? ==>
      && r.value < |rolling| && IsFlat(rolling[r.value], threshold)
      && forall k :: 0 <= k < r.value ==> !IsFlat(rolling[k], threshold)
  {
    if |rolling| == 0 then None
    else
      var earlier := FirstFlat(rolling[..|rolling| - 1], threshold);
      if earlier.Some? then earlier
      else if IsFlat(Last(rolling), threshold) then Some(|rolling| - 1)
      else None
  }

  /** A flat window is non-empty (its mean is positive), so its indices are
      valid positions of the readings: the start `j` directly, and the end
      `w - 1 + j` as a Python index, which may count from the back. */
  lemma FlatWindowInRange(values: seq<real>, w: int, threshold: real, j: nat)
    requires j < |RollingVarianceOf(values, w)| && IsFlat(RollingVarianceOf(values, w)[j], threshold)
    ensures j < |values|
    ensures -|values| <= w - 1 + j < |values|
  {
    var window := TrailingWindow(values, w, w - 1 + j);
    assert |window| > 0 by {
      assert CalculateStats(window).mean > 0.1;
      PositiveMeanNonEmpty(window);
    }
    TrailingWindowPositions(values, w, j);
  }

  lemma PositiveMeanNonEmpty(window: seq<real>)
    requires CalculateStats(window).mean > 0.1
    ensures |window| > 0
  {
  }

  /** A non-empty trailing window starts at a valid position and ends at a
      valid Python index. */
  lemma TrailingWindowPositions(values: seq<real>, w: int, j: nat)
    requires j < WindowCount(|values|, w) && |TrailingWindow(values, w, w - 1 + j)| > 0
    ensures j < |values|
    ensures -|values| <= w - 1 + j < |values|
  {
  }

  /** The flatline issue of the `j`-th window. */
  function FlatlineIssue(c: Channel, config: SensorHealthConfig, w: int, j: nat): (r: HealthIssue)
    requires j < |RollingVarianceOf(Map(c.readings, PowerOf), w)|
    requires IsFlat(RollingVarianceOf(Map(c.readings, PowerOf), w)[j], config.flatlineVarianceThreshold)
    ensures r.issueType == Flatline && r.severity == Medium
    ensures r.channelId == c.channelId && r.channelName == c.channelName
    ensures r.details.FlatlineDetails? && r.details.flatStart.Some? && r.details.flatEnd.Some?
    ensures w >= 1 ==>
      r.details.flatStart == Some(c.readings[j].ts) && r.details.flatEnd == Some(c.readings[w - 1 + j].ts)
  {
    var values := Map(c.readings, PowerOf);
    var e := RollingVarianceOf(values, w)[j];
    RollingVarianceEntries(values, w, j);
    FlatWindowInRange(values, w, config.flatlineVarianceThreshold, j);
    var n := |c.readings|;
    var startIdx := e.index - w + 1;
    var endIdx := e.index;
    HealthIssue(Flatline, Medium, c.channelId, c.channelName,
                FlatlineDetails(
                  if startIdx < n then Some(c.readings[startIdx].ts) else None,
                  if endIdx < n then Some(c.readings[if endIdx < 0 then endIdx + n else endIdx].ts) else None,
                  e.mean, e.variance))
  }

  /** At most one flatline issue: the first flat window, when there are
      powers and no fewer of them than the window. */
  function FlatlineIssues(c: Channel, config: SensorHealthConfig, intervalSeconds: int): (r: seq<HealthIssue>)
    requires intervalSeconds != 0
    ensures |r| <= 1
    ensures AboutChannel(r, c) && forall i :: 0 <= i < |r| ==> r[i].issueType == Flatline
  {
    var values := Map(c.readings, PowerOf);
    var w := FlatlineWindow(config.flatlineHours, intervalSeconds);
    if |values| > 0 && |values| >= w then
      var first := FirstFlat(RollingVarianceOf(values, w), config.flatlineVarianceThreshold);
      if first.Some? then [FlatlineIssue(c, config, w, first.value)] else []
    else []
  }

  /** There is a flatline issue exactly when the channel has readings, at
      least a window of them, and some window is flat; it is the issue of
      the first flat window. */
  lemma FlatlineIssuesFacts(c: Channel, config: SensorHealthConfig, intervalSeconds: int)
    requires intervalSeconds != 0
    ensures var r := FlatlineIssues(c, config, intervalSeconds);
      var rolling := RollingVarianceOf(Map(c.readings, PowerOf), FlatlineWindow(config.flatlineHours, intervalSeconds));
      var t := config.flatlineVarianceThreshold;
      && (|r| == 1 <==>
            && |c.readings| > 0 && |c.readings| >= FlatlineWindow(config.flatlineHours, intervalSeconds)
            && exists j :: 0 <= j < |rolling| && IsFlat(rolling[j], t))
      && (|r| == 1 ==> exists j ::
            && 0 <= j < |rolling| && IsFlat(rolling[j], t)
            && r[0] == FlatlineIssue(c, config, FlatlineWindow(config.flatlineHours, intervalSeconds), j)
            && (forall k :: 0 <= k < j ==> !IsFlat(rolling[k], t)))
  {
  }

  // ---------------------------------------------------------------------
  // 4. Stale data

  /** `(now - last_time).total_seconds() / 3600`, with `now` in Unix seconds. */
  function HoursSince(last: DateTime, now: int): real
  {
    (now - last.utc) as real / 3600.0
  }

  /** A `stale_data` issue exactly when the last reading is more than
      `staleHours` old; high when older than a day, else low. */
  function StaleIssues(c: Channel, config: SensorHealthConfig, now: int): (r: seq<HealthIssue>)
    ensures |r| <= 1
    ensures |r| == 1 <==>
      |c.readings| > 0 && HoursSince(TimeOf(Last(c.readings)), now) > config.staleHours
    ensures |r| == 1 ==>
      var hours := HoursSince(TimeOf(Last(c.readings)), now);
      && r[0].issueType == StaleData
      && r[0].channelId == c.channelId && r[0].channelName == c.channelName
      && (r[0].severity == High <==> hours > 24.0)
      && (r[0].severity == High || r[0].severity == Low)
      && r[0].details == StaleDetails(Last(c.readings).ts, hours)
  {
    if |c.readings| > 0 then
      var last := Last(c.readings);
      var hours := HoursSince(TimeOf(last), now);
      if hours > config.staleHours then
        [HealthIssue(StaleData, if hours > 24.0 then High else Low,
                     c.channelId, c.channelName, StaleDetails(last.ts, hours))]
      else []
    else []
  }

  // ---------------------------------------------------------------------
  // analyze_sensor_health

  /** The issues of one channel, in the order the four checks run. */
  function ChannelIssues(c: Channel, config: SensorHealthConfig, intervalSeconds: int, now: int): seq<HealthIssue>
    requires intervalSeconds != 0
  {
    GapIssues(GapsOf(Map(c.readings, TimeOf), intervalSeconds), c, config)
      + CompletenessIssues(c, config)
      + FlatlineIssues(c, config, intervalSeconds)
      + StaleIssues(c, config, now)
  }

  /** `rolling_variance` followed by the `for stat in rolling: ... break`
      scan for the first flat window. */
  method ScanForFlatline(values: seq<real>, w: int, threshold: real) returns (found: Option<nat>)
    ensures found == FirstFlat(RollingVarianceOf(values, w), threshold)
  {
    var rolling := RollingVariance(values, w);
    found := None;
    var j := 0;
    while j < |rolling|
      invariant 0 <= j <= |rolling|
      invariant forall k :: 0 <= k < j ==> !IsFlat(rolling[k], threshold)
    {
      if rolling[j].variance < threshold && rolling[j].mean > 0.1 {
        found := Some(j);
        return;
      }
      j := j + 1;
    }
  }

  /** The loop of check 1: one issue per gap missing at least
      `gapMultiplier` intervals. */
  method ReportGaps(c: Channel, config: SensorHealthConfig, gaps: seq<Gap>) returns (issues: seq<HealthIssue>)
    ensures issues == GapIssues(gaps, c, config)
  {
    issues := [];
    for i := 0 to |gaps|
      invariant issues == GapIssues(gaps[..i], c, config)
    {
      var gap := gaps[i];
      assert gaps[..i + 1] == gaps[..i] + [gap];
      assert Filter(gaps[..i + 1], Reported(config.gapMultiplier))
          == Filter(gaps[..i], Reported(config.gapMultiplier))
             + (if Reported(config.gapMultiplier)(gap) then [gap] else []) by {
        FilterSnoc(gaps[..i], gap, Reported(config.gapMultiplier));
      }
      if gap.missingIntervals as real >= config.gapMultiplier {
        assert GapIssues(gaps[..i + 1], c, config) == issues + [GapIssue(c)(gap)] by {
          MapSnoc(Filter(gaps[..i], Reported(config.gapMultiplier)), gap, GapIssue(c));
        }
        issues := issues + [HealthIssue(MissingData, if gap.missingIntervals > 10 then High else Medium,
                                        c.channelId, c.channelName,
                                        GapDetails(gap.start, gap.end, gap.missingIntervals, gap.actualInterval))];
      }
    }
    assert gaps[..|gaps|] == gaps;
  }

  /** Check 2: the overall completeness of the channel. */
  method CheckCompleteness(c: Channel, config: SensorHealthConfig) returns (issues: seq<HealthIssue>)
    ensures issues == CompletenessIssues(c, config)
  {
    issues := [];
    var expected := if c.expectedIntervals.Some? then c.expectedIntervals.value else |c.readings|;
    var actual := |c.readings|;
    var completeness := CalculateCompleteness(actual, expected);
    if completeness < 100.0 - config.missingThresholdPct {
      issues := issues + [HealthIssue(LowCompleteness, if completeness < 50.0 then High else Medium,
                                      c.channelId, c.channelName,
                                      CompletenessDetails(completeness, expected - actual))];
    }
  }

  /** Check 3: the first flat window of the channel's powers. */
  method CheckFlatline(c: Channel, config: SensorHealthConfig, intervalSeconds: int) returns (issues: seq<HealthIssue>)
    requires intervalSeconds != 0
    ensures issues == FlatlineIssues(c, config, intervalSeconds)
  {
    issues := [];
    var powers := Map(c.readings, PowerOf);
    if |powers| > 0 {
      var window := Truncate(config.flatlineHours * 3600.0 / intervalSeconds as real);
      if |powers| >= window {
        var first := ScanForFlatline(powers, window, config.flatlineVarianceThreshold);
        if first.Some? {
          issues := issues + [FlatlineIssue(c, config, window, first.value)];
        }
      }
    }
  }

  /** Check 4: the age of the last reading at the instant `now`. */
  method CheckStale(c: Channel, config: SensorHealthConfig, now: int) returns (issues: seq<HealthIssue>)
    ensures issues == StaleIssues(c, config, now)
  {
    issues := [];
    if |c.readings| > 0 {
      var last := c.readings[|c.readings| - 1];
      var lastTime := ParseTimestamp(last.ts);
      var hours := (now - lastTime.utc) as real / 3600.0;
      if hours > config.staleHours {
        issues := issues + [HealthIssue(StaleData, if hours > 24.0 then High else Low,
                                        c.channelId, c.channelName, StaleDetails(last.ts, hours))];
      }
    }
  }

  /** `analyze_sensor_health`: the four checks in order, each appending its
      issues. */
  method AnalyzeSensorHealth(c: Channel, config: SensorHealthConfig, intervalSeconds: int, now: int)
    returns (issues: seq<HealthIssue>)
    requires intervalSeconds != 0
    ensures issues == ChannelIssues(c, config, intervalSeconds, now)
  {
    var gaps := FindGaps(Map(c.readings, TimeOf), intervalSeconds);
    issues := ReportGaps(c, config, gaps);
    var more := CheckCompleteness(c, config);
    issues := issues + more;
    more := CheckFlatline(c, config, intervalSeconds);
    issues := issues + more;
    more := CheckStale(c, config, now);
    issues := issues + more;
  }

  /** Every issue of a channel names the channel. */
  lemma ChannelIssuesAbout(c: Channel, config: SensorHealthConfig, intervalSeconds: int, now: int)
    requires intervalSeconds != 0
    ensures AboutChannel(ChannelIssues(c, config, intervalSeconds, now), c)
  {
    var gaps := GapsOf(Map(c.readings, TimeOf), intervalSeconds);
    var g := GapIssues(gaps, c, config);
    var b := CompletenessIssues(c, config);
    var s := StaleIssues(c, config, now);
    assert AboutChannel(g, c) by {
      GapIssuesFacts(gaps, c, config);
    }
    assert AboutChannel(b, c) && AboutChannel(s, c);
    AboutConcat(g, b, FlatlineIssues(c, config, intervalSeconds), s, c);
  }

  /** Besides its gap issues, a channel has at most one issue of each type:
      in particular at most one flatline issue. */
  lemma ChannelIssuesTypes(c: Channel, config: SensorHealthConfig, intervalSeconds: int, now: int)
    requires intervalSeconds != 0
    ensures forall t :: t != MissingData ==>
      |Filter(ChannelIssues(c, config, intervalSeconds, now), KeyIs(TypeOf, t))| <= 1
  {
    var gaps := GapsOf(Map(c.readings, TimeOf), intervalSeconds);
    var g := GapIssues(gaps, c, config);
    assert forall i :: 0 <= i < |g| ==> g[i].issueType == MissingData by {
      GapIssuesFacts(gaps, c, config);
    }
    AtMostOneOfType(g, CompletenessIssues(c, config), FlatlineIssues(c, config, intervalSeconds),
                    StaleIssues(c, config, now));
  }

  /** Gap issues followed by at most one issue of each of the other three
      types hold at most one issue of any type but `missing_data`. */
  lemma AtMostOneOfType(g: seq<HealthIssue>, b: seq<HealthIssue>, f: seq<HealthIssue>, s: seq<HealthIssue>)
    requires forall i :: 0 <= i < |g| ==> g[i].issueType == MissingData
    requires |b| <= 1 && forall i :: 0 <= i < |b| ==> b[i].issueType == LowCompleteness
    requires |f| <= 1 && forall i :: 0 <= i < |f| ==> f[i].issueType == Flatline
    requires |s| <= 1 && forall i :: 0 <= i < |s| ==> s[i].issueType == StaleData
    ensures forall t :: t != MissingData ==> |Filter(g + b + f + s, KeyIs(TypeOf, t))| <= 1
  {
    forall t | t != MissingData
      ensures |Filter(g + b + f + s, KeyIs(TypeOf, t))| <= 1
    {
      OneOfEach(g, b, f, s, t);
    }
  }

  lemma OneOfEach(g: seq<HealthIssue>, b: seq<HealthIssue>, f: seq<HealthIssue>, s: seq<HealthIssue>,
                  t: IssueType)
    requires forall i :: 0 <= i < |g| ==> g[i].issueType == MissingData
    requires |b| <= 1 && forall i :: 0 <= i < |b| ==> b[i].issueType == LowCompleteness
    requires |f| <= 1 && forall i :: 0 <= i < |f| ==> f[i].issueType == Flatline
    requires |s| <= 1 && forall i :: 0 <= i < |s| ==> s[i].issueType == StaleData
    requires t != MissingData
    ensures |Filter(g + b + f + s, KeyIs(TypeOf, t))| <= 1
  {
    var p := KeyIs(TypeOf, t);
    FilterNone(g, p);
    FilterConcat(g, b, p);
    FilterConcat(g + b, f, p);
    FilterConcat(g + b + f, s, p);
    OneOfType(b, t, LowCompleteness);
    OneOfType(f, t, Flatline);
    OneOfType(s, t, StaleData);
  }

  lemma AboutConcat(g: seq<HealthIssue>, b: seq<HealthIssue>, f: seq<HealthIssue>, s: seq<HealthIssue>, c: Channel)
    requires AboutChannel(g, c) && AboutChannel(b, c) && AboutChannel(f, c) && AboutChannel(s, c)
    ensures AboutChannel(g + b + f + s, c)
  {
  }

  lemma OneOfType(r: seq<HealthIssue>, t: IssueType, only: IssueType)
    requires |r| <= 1 && forall i :: 0 <= i < |r| ==> r[i].issueType == only
    ensures |Filter(r, KeyIs(TypeOf, t))| <= 1
    ensures t != only ==> Filter(r, KeyIs(TypeOf, t)) == []
  {
    var p := KeyIs(TypeOf, t);
    if |r| == 1 {
      assert r == [] + [r[0]];
      FilterSnoc([], r[0], p);
      assert Filter(r, p) == if p(r[0]) then [r[0]] else [];
      assert p(r[0]) <==> r[0].issueType == t;
    }
  }

  // ---------------------------------------------------------------------
  // analyze_sensor_health_for_site

  /** The issues of every channel, channel by channel (`all_issues.extend`). */
  function AllIssues(channels: seq<Channel>, config: SensorHealthConfig, intervalSeconds: int, now: int)
    : seq<HealthIssue>
    requires intervalSeconds != 0
  {
    if |channels| == 0 then []
    else AllIssues(channels[..|channels| - 1], config, intervalSeconds, now)
         + ChannelIssues(Last(channels), config, intervalSeconds, now)
  }

  lemma AllIssuesSnoc(channels: seq<Channel>, c: Channel, config: SensorHealthConfig, intervalSeconds: int, now: int)
    requires intervalSeconds != 0
    ensures AllIssues(channels + [c], config, intervalSeconds, now)
         == AllIssues(channels, config, intervalSeconds, now) + ChannelIssues(c, config, intervalSeconds, now)
  {
    assert (channels + [c])[..|channels|] == channels;
  }

  /** `severity_order`: high, then medium, then low. */
  function SeverityRank(s: Severity): int
  {
    match s
    case High => 0
    case Medium => 1
    case Low => 2
  }

  function SeverityKey(s: Severity): Key
  {
    Key(SeverityRank(s) as real, 0.0)
  }

  function BySeverity(): HealthIssue -> Key
  {
    (issue: HealthIssue) => SeverityKey(issue.severity)
  }

  function CountOf(issues: seq<HealthIssue>, s: Severity): nat
  {
    |Filter(issues, HasSeverity(s))|
  }

  datatype SiteHealth = SiteHealth(totalIssues: nat, highSeverity: nat, mediumSeverity: nat, lowSeverity: nat,
                                   issues: seq<HealthIssue>, summary: seq<SummaryEntry>)

  method AnalyzeSensorHealthForSite(channels: seq<Channel>, config: SensorHealthConfig, intervalSeconds: int, now: int)
    returns (r: SiteHealth)
    requires intervalSeconds != 0
    ensures r.issues == SortBy(AllIssues(channels, config, intervalSeconds, now), BySeverity())
    ensures r.totalIssues == |r.issues|
    ensures r.highSeverity == CountOf(r.issues, High)
    ensures r.mediumSeverity == CountOf(r.issues, Medium)
    ensures r.lowSeverity == CountOf(r.issues, Low)
    ensures r.summary == HealthSummary(r.issues)
  {
    var all: seq<HealthIssue> := [];
    for i := 0 to |channels|
      invariant all == AllIssues(channels[..i], config, intervalSeconds, now)
    {
      var c := channels[i];
      var issues := AnalyzeSensorHealth(c, config, intervalSeconds, now);
      assert all + issues == AllIssues(channels[..i + 1], config, intervalSeconds, now) by {
        PrefixSnoc(channels, i);
        AllIssuesSnoc(channels[..i], c, config, intervalSeconds, now);
      }
      all := all + issues;
    }
    assert channels[..|channels|] == channels;
    all := SortBy(all, BySeverity());
    var summary := GenerateHealthSummary(all);
    r := SiteHealth(|all|, |Filter(all, HasSeverity(High))|, |Filter(all, HasSeverity(Medium))|,
                    |Filter(all, HasSeverity(Low))|, all, summary);
  }

  /** Every issue has one of the three severities, so the counts add up. */
  lemma {:induction false} SeverityCountsSum(issues: seq<HealthIssue>)
    ensures CountOf(issues, High) + CountOf(issues, Medium) + CountOf(issues, Low) == |issues|
  {
    if |issues| > 0 {
      var p := issues[..|issues| - 1];
      var x := Last(issues);
      assert issues == p + [x];
      SeverityCountsSum(p);
      FilterSnoc(p, x, HasSeverity(High));
      FilterSnoc(p, x, HasSeverity(Medium));
      FilterSnoc(p, x, HasSeverity(Low));
    }
  }

  /** The site's issues are all channels' issues, ordered high, medium, low,
      with the issues of one severity in their original order; the
      severity counts add up to the total. */
  lemma SiteIssuesFacts(all: seq<HealthIssue>)
    ensures var sorted := SortBy(all, BySeverity());
      && multiset(sorted) == multiset(all)
      && (forall i, j :: 0 <= i < j < |sorted| ==>
            SeverityRank(sorted[i].severity) <= SeverityRank(sorted[j].severity))
      && (forall s :: Filter(sorted, HasSeverity(s)) == Filter(all, HasSeverity(s)))
      && CountOf(sorted, High) + CountOf(sorted, Medium) + CountOf(sorted, Low) == |all|
  {
    var sorted := SortBy(all, BySeverity());
    SortBySorted(all, BySeverity());
    assert forall i, j :: 0 <= i < j < |sorted| ==> !Before(BySeverity()(sorted[j]), BySeverity()(sorted[i]));
    forall s
      ensures Filter(sorted, HasSeverity(s)) == Filter(all, HasSeverity(s))
    {
      SortByStable(all, BySeverity(), SeverityKey(s));
      SameSeverityFilter(sorted, s);
      SameSeverityFilter(all, s);
    }
    SeverityCountsSum(sorted);
  }

  lemma SameSeverityFilter(issues: seq<HealthIssue>, s: Severity)
    ensures Filter(issues, HasKey(BySeverity(), SeverityKey(s))) == Filter(issues, HasSeverity(s))
  {
    FilterCongruent(issues, HasKey(BySeverity(), SeverityKey(s)), HasSeverity(s));
  }

  // ---------------------------------------------------------------------
  // generate_health_summary

  /** One summary entry per issue type; the joined channel list and
      description text are not modelled. */
  datatype SummaryEntry = SummaryEntry(issueType: IssueType, count: nat, affectedChannels: nat)

  /** The set of channel names of some issues. */
  function ChannelNames(issues: seq<HealthIssue>): set<string>
  {
    if |issues| == 0 then {} else ChannelNames(issues[..|issues| - 1]) + {Last(issues).channelName}
  }

  lemma ChannelNamesSnoc(issues: seq<HealthIssue>, x: HealthIssue)
    ensures ChannelNames(issues + [x]) == ChannelNames(issues) + {x.channelName}
  {
    assert (issues + [x])[..|issues|] == issues;
  }

  /** A name is affected exactly when some issue carries it; there are no
      more names than issues, and at least one when there are issues. */
  lemma {:induction false} ChannelNamesFacts(issues: seq<HealthIssue>)
    ensures forall n :: n in ChannelNames(issues) <==> exists x :: x in issues && x.channelName == n
    ensures |ChannelNames(issues)| <= |issues|
    ensures |issues| > 0 ==> |ChannelNames(issues)| >= 1
  {
    if |issues| > 0 {
      var p := issues[..|issues| - 1];
      var x := Last(issues);
      assert issues == p + [x];
      ChannelNamesFacts(p);
      assert x.channelName in ChannelNames(issues);
    }
  }

  /** A `by_type` value: the count of issues and the set of channel names. */
  datatype TypeTally = TypeTally(count: nat, channels: set<string>)

  function TallyOf(issues: seq<HealthIssue>): TypeTally
  {
    TypeTally(|issues|, ChannelNames(issues))
  }

  function OfType(issues: seq<HealthIssue>, t: IssueType): seq<HealthIssue>
  {
    Filter(issues, KeyIs(TypeOf, t))
  }

  /** The summary entry of a type over `issues`. */
  function EntryFor(issues: seq<HealthIssue>): IssueType -> SummaryEntry
  {
    (t: IssueType) =>
      var tally := TallyOf(OfType(issues, t));
      SummaryEntry(t, tally.count, |tally.channels|)
  }

  /** The entries in first-occurrence order of their types (the order of the
      `by_type` dict). */
  function HealthSummary(issues: seq<HealthIssue>): seq<SummaryEntry>
  {
    Map(DistinctKeys(issues, TypeOf), EntryFor(issues))
  }

  /** The `by_type` dict after the issues `seen`, with its key order. */
  ghost predicate ByType(order: seq<IssueType>, byType: map<IssueType, TypeTally>, seen: seq<HealthIssue>)
  {
    && order == DistinctKeys(seen, TypeOf)
    && (forall t :: t in byType <==> t in order)
    && (forall t :: t in byType ==> byType[t] == TallyOf(OfType(seen, t)))
  }

  /** The tally of a type after one more issue of that type. */
  function Count(d: TypeTally, x: HealthIssue): TypeTally
  {
    TypeTally(d.count + 1, d.channels + {x.channelName})
  }

  lemma TallySnoc(issues: seq<HealthIssue>, x: HealthIssue)
    ensures TallyOf(issues + [x]) == Count(TallyOf(issues), x)
  {
    ChannelNamesSnoc(issues, x);
  }

  lemma ByTypeStep(order: seq<IssueType>, byType: map<IssueType, TypeTally>, seen: seq<HealthIssue>, x: HealthIssue)
    requires ByType(order, byType, seen)
    ensures var t := x.issueType;
      var o := if t in byType then order else order + [t];
      var d := if t in byType then byType else byType[t := TypeTally(0, {})];
      ByType(o, d[t := Count(d[t], x)], seen + [x])
  {
    var t := x.issueType;
    var o := if t in byType then order else order + [t];
    var d := if t in byType then byType else byType[t := TypeTally(0, {})];
    var d' := d[t := Count(d[t], x)];
    assert o == DistinctKeys(seen + [x], TypeOf) by {
      DistinctKeysSnoc(seen, x, TypeOf);
    }
    assert d[t] == TallyOf(OfType(seen, t)) by {
      if t !in byType {
        forall y | y in seen ensures !KeyIs(TypeOf, t)(y) {
          assert TypeOf(y) in DistinctKeys(seen, TypeOf);
        }
        FilterNone(seen, KeyIs(TypeOf, t));
      }
    }
    forall u | u in d'
      ensures d'[u] == TallyOf(OfType(seen + [x], u))
    {
      if u == t {
        assert OfType(seen + [x], t) == OfType(seen, t) + [x] by {
          FilterSnoc(seen, x, KeyIs(TypeOf, t));
        }
        TallySnoc(OfType(seen, t), x);
      } else {
        assert OfType(seen + [x], u) == OfType(seen, u) by {
          FilterSnoc(seen, x, KeyIs(TypeOf, u));
        }
        assert d'[u] == byType[u];
      }
    }
  }

  method GenerateHealthSummary(issues: seq<HealthIssue>) returns (summary: seq<SummaryEntry>)
    ensures summary == HealthSummary(issues)
  {
    var order, byType := TallyByType(issues);
    summary := [];
    for j := 0 to |order|
      invariant summary == Map(order[..j], EntryFor(issues))
    {
      var t := order[j];
      PrefixSnoc(order, j);
      MapSnoc(order[..j], t, EntryFor(issues));
      summary := summary + [SummaryEntry(t, byType[t].count, |byType[t].channels|)];
    }
    assert order[..|order|] == order;
  }

  /** The first loop of `generate_health_summary`: the `by_type` dict and
      its key order after all issues. */
  method TallyByType(issues: seq<HealthIssue>) returns (order: seq<IssueType>, byType: map<IssueType, TypeTally>)
    ensures ByType(order, byType, issues)
  {
    order := [];
    byType := map[];
    for i := 0 to |issues|
      invariant ByType(order, byType, issues[..i])
    {
      var issue := issues[i];
      var t := issue.issueType;
      PrefixSnoc(issues, i);
      ByTypeStep(order, byType, issues[..i], issue);
      if t !in byType {
        order := order + [t];
        byType := byType[t := TypeTally(0, {})];
      }
      byType := byType[t := Count(byType[t], issue)];
    }
    assert issues[..|issues|] == issues;
  }

  /** The entries follow the distinct types in first-occurrence order. */
  lemma HealthSummaryOrder(issues: seq<HealthIssue>)
    ensures var r := HealthSummary(issues);
      var keys := DistinctKeys(issues, TypeOf);
      |r| == |keys| && forall i :: 0 <= i < |r| ==> r[i].issueType == keys[i]
  {
  }

  /** The issue types present in a list of issues. */
  ghost function TypesIn(issues: seq<HealthIssue>): set<IssueType> {
    set x | x in issues :: x.issueType
  }

  /** One entry per distinct issue type: no type twice, and exactly the
      types that occur. */
  lemma HealthSummaryTypes(issues: seq<HealthIssue>)
    ensures var r := HealthSummary(issues);
      && (forall i, j :: 0 <= i < j < |r| ==> r[i].issueType != r[j].issueType)
      && (set e | e in r :: e.issueType) == TypesIn(issues)
  {
    HealthSummaryOrder(issues);
    EntriesFollowKeys(issues, HealthSummary(issues), DistinctKeys(issues, TypeOf));
  }

  /** Entries whose types are the distinct keys in order have the types
      of the issues, each once. */
  lemma EntriesFollowKeys(issues: seq<HealthIssue>, r: seq<SummaryEntry>, keys: seq<IssueType>)
    requires keys == DistinctKeys(issues, TypeOf)
    requires |r| == |keys| && forall i :: 0 <= i < |r| ==> r[i].issueType == keys[i]
    ensures forall i, j :: 0 <= i < j < |r| ==> r[i].issueType != r[j].issueType
    ensures (set e | e in r :: e.issueType) == TypesIn(issues)
  {
    forall t | t in TypesIn(issues) ensures t in (set e | e in r :: e.issueType) {
      var x :| x in issues && x.issueType == t;
      assert TypeOf(x) in keys;
      var i :| 0 <= i < |keys| && keys[i] == TypeOf(x);
      assert r[i] in r;
    }
    forall t | t in (set e | e in r :: e.issueType) ensures t in TypesIn(issues) {
      var e :| e in r && e.issueType == t;
      var i :| 0 <= i < |r| && r[i] == e;
      assert keys[i] in keys;
      var x :| x in issues && TypeOf(x) == keys[i];
      assert x in issues && x.issueType == t;
    }
  }

  /** Each entry counts the issues of its type and the distinct channels
      among them: at least one, and never more channels than issues. */
  lemma HealthSummaryCounts(issues: seq<HealthIssue>)
    ensures var r := HealthSummary(issues);
      forall i :: 0 <= i < |r| ==>
        && r[i].count == |OfType(issues, r[i].issueType)|
        && r[i].affectedChannels == |ChannelNames(OfType(issues, r[i].issueType))|
        && 1 <= r[i].affectedChannels <= r[i].count
  {
    var keys := DistinctKeys(issues, TypeOf);
    var r := HealthSummary(issues);
    forall i | 0 <= i < |r|
      ensures 1 <= r[i].affectedChannels <= r[i].count
    {
      var t := keys[i];
      assert r[i] == EntryFor(issues)(t);
      assert t in keys;
      var x :| x in issues && TypeOf(x) == t;
      EntryBounds(issues, t, x);
    }
  }

  lemma EntryBounds(issues: seq<HealthIssue>, t: IssueType, x: HealthIssue)
    requires x in issues && x.issueType == t
    ensures 1 <= |ChannelNames(OfType(issues, t))| <= |OfType(issues, t)|
  {
    FilterMembership(issues, KeyIs(TypeOf, t), x);
    ChannelNamesFacts(OfType(issues, t));
  }

  function EntryCount(e: SummaryEntry): nat
  {
    e.count
  }

  /** The entry counts add up to the number of issues. */
  lemma HealthSummaryTotal(issues: seq<HealthIssue>)
    ensures SumNat(Map(HealthSummary(issues), EntryCount)) == |issues|
  {
    SummaryCounts(DistinctKeys(issues, TypeOf), issues);
    GroupSizesSum(issues, TypeOf);
  }

  lemma {:induction false} SummaryCounts(keys: seq<IssueType>, issues: seq<HealthIssue>)
    ensures SumNat(Map(Map(keys, EntryFor(issues)), EntryCount)) == BucketTotal(keys, issues, TypeOf)
  {
    if |keys| > 0 {
      var ks := keys[..|keys| - 1];
      var k := Last(keys);
      assert keys == ks + [k];
      SummaryCounts(ks, issues);
      MapSnoc(ks, k, EntryFor(issues));
      MapSnoc(Map(ks, EntryFor(issues)), EntryFor(issues)(k), EntryCount);
      SumNatSnoc(Map(Map(ks, EntryFor(issues)), EntryCount), EntryFor(issues)(k).count);
    }
  }
}
