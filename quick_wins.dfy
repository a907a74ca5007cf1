/** The quick-wins synthesizer: from the results of the four analyses it
    builds at most one recommendation per finding category (at most three
    for after-hours waste), orders them by priority and then by weekly
    energy impact, and keeps the first `maxCount`.

    Only the fields that carry data are modelled. The formatted
    `description` text, the fixed `recommendations`, `owner` and `effort`
    strings, and the fixed impact description of the sensor wins are
    constants of each category and are left out; a title is represented by
    the values it is formatted from. */
module QuickWins {
  import opened Seqs
  import opened StableSort
  import opened ReportConfig
  import W = AfterHoursWaste
  import H = SensorHealth
  import A = AnomalyDetection
  import S = SpikeDetection

  /** The results handed to the synthesizer; an analysis that was not run
      is `None`. */
  datatype Analytics = Analytics(
    afterHoursWaste: Option<W.WasteAnalysis>, sensorHealth: Option<H.SiteHealth>,
    anomalies: Option<A.AnomalyAnalysis>, spikes: Option<S.SpikeAnalysis>)

  /** A title, by the values it is formatted from. */
  datatype Title =
    | ReduceBaseLoad(channelName: string)
    | FixCommunication(meters: nat)
    | InvestigateSpikes(channelName: string)
    | ReduceDemandSpikes(channelName: string)
    | CheckStuckSensors(detected: nat)
    | OverallOpportunity

  /** The `type` field: the flatline win shares `sensor_health` with the
      communication win. */
  datatype WinType = AfterHoursWasteWin | SensorHealthWin | AnomalyWin | SpikeWin | SummaryWin

  datatype Priority = HighPriority | MediumPriority | LowPriority

  datatype Confidence = HighConfidence | MediumConfidence

  /** `weeklyKwh` is either a number or the string 'N/A'. */
  datatype WeeklyKwh = Kwh(kwh: real) | NotApplicable

  /** The spike win's `additionalNote`: the monthly demand charge when a
      demand charge is configured, a generic remark otherwise. Other wins
      carry no note. */
  datatype DemandNote = NoNote | DemandChargeNote(monthly: real) | GenericDemandNote

  datatype Impact = Impact(weeklyKwh: WeeklyKwh, weeklyCost: real, annualCost: real, note: DemandNote)

  datatype QuickWin = QuickWin(title: Title, winType: WinType, priority: Priority,
                               impact: Impact, confidence: Confidence)

  // ---------------------------------------------------------------------
  // 1. After-hours waste

  function Qualifies(minWeeklyImpact: real): W.WasteResult -> bool
  {
    (m: W.WasteResult) => m.excessAfterHoursKwh >= minWeeklyImpact
  }

  function AfterHoursWinOf(m: W.WasteResult): (w: QuickWin)
    ensures w.title == ReduceBaseLoad(m.channelName) && w.winType == AfterHoursWasteWin
    ensures w.priority == HighPriority <==> m.excessAfterHoursKwh > 100.0
    ensures w.priority != LowPriority
    ensures w.impact.weeklyKwh == Kwh(m.excessAfterHoursKwh) && w.impact.weeklyCost == m.excessCost
    ensures w.impact.annualCost == w.impact.weeklyCost * 52.0
    ensures w.confidence == HighConfidence <==> m.intervals > 100
  {
    QuickWin(ReduceBaseLoad(m.channelName), AfterHoursWasteWin,
             if m.excessAfterHoursKwh > 100.0 then HighPriority else MediumPriority,
             Impact(Kwh(m.excessAfterHoursKwh), m.excessCost, m.excessCost * 52.0, NoNote),
             if m.intervals > 100 then HighConfidence else MediumConfidence)
  }

  /** The meters considered: the first three of `topMeters`. */
  function ConsideredMeters(analytics: Analytics): (r: seq<W.WasteResult>)
    ensures |r| <= 3
  {
    match analytics.afterHoursWaste
    case None => []
    case Some(w) => Take(w.topMeters, 3)
  }

  /** One win per meter among the first three whose excess reaches
      `minWeeklyImpact`, so at most three. */
  function AfterHoursWins(analytics: Analytics, config: Config): (r: seq<QuickWin>)
    ensures |r| == |Filter(ConsideredMeters(analytics), Qualifies(config.quickWins.minWeeklyImpact))| <= 3
  {
    Map(Filter(ConsideredMeters(analytics), Qualifies(config.quickWins.minWeeklyImpact)), AfterHoursWinOf)
  }

  /** Each after-hours win comes from such a meter. */
  lemma AfterHoursWinsFrom(analytics: Analytics, config: Config, w: QuickWin)
    requires w in AfterHoursWins(analytics, config)
    ensures exists m :: (m in ConsideredMeters(analytics)
      && m.excessAfterHoursKwh >= config.quickWins.minWeeklyImpact && w == AfterHoursWinOf(m))
  {
    MapFilterElements(ConsideredMeters(analytics), Qualifies(config.quickWins.minWeeklyImpact), AfterHoursWinOf, w);
  }

  // ---------------------------------------------------------------------
  // 2. Sensor and communication issues

  /** The distinct channel names among the high-severity issues. */
  function AffectedChannels(issues: seq<H.HealthIssue>): set<string>
  {
    set i | i in Filter(issues, H.HasSeverity(H.High)) :: i.channelName
  }

  function SensorWinOf(affected: nat): (w: QuickWin)
    ensures w.title == FixCommunication(affected) && w.winType == SensorHealthWin
    ensures w.priority == HighPriority && w.impact.weeklyKwh == NotApplicable
    ensures w.impact.weeklyCost == 0.0 && w.impact.annualCost == 0.0
  {
    QuickWin(FixCommunication(affected), SensorHealthWin, HighPriority,
             Impact(NotApplicable, 0.0, 0.0, NoNote), HighConfidence)
  }

  function SensorWins(analytics: Analytics): seq<QuickWin>
  {
    match analytics.sensorHealth
    case Some(h) =>
      if h.highSeverity > 0 && |AffectedChannels(h.issues)| > 0
      then [SensorWinOf(|AffectedChannels(h.issues)|)] else []
    case None => []
  }

  /** Some channel is affected exactly when some issue is of high severity. */
  lemma AffectedWhenHigh(issues: seq<H.HealthIssue>)
    ensures |AffectedChannels(issues)| > 0 <==> exists i :: i in issues && i.severity == H.High
  {
    var p := H.HasSeverity(H.High);
    if exists i :: i in issues && i.severity == H.High {
      var i :| i in issues && i.severity == H.High;
      FilterMembership(issues, p, i);
      assert i.channelName in AffectedChannels(issues);
    }
    if |AffectedChannels(issues)| > 0 {
      var n :| n in AffectedChannels(issues);
      var i :| i in Filter(issues, p) && i.channelName == n;
      FilterMembership(issues, p, i);
    }
  }

  /** A communication win is emitted exactly when the high-severity count is
      positive and some issue is of high severity; it counts the distinct
      affected channel names. */
  lemma SensorWinsFacts(analytics: Analytics)
    ensures |SensorWins(analytics)| <= 1
    ensures |SensorWins(analytics)| == 1 <==>
      (analytics.sensorHealth.Some? && analytics.sensorHealth.value.highSeverity > 0
       && exists i :: i in analytics.sensorHealth.value.issues && i.severity == H.High)
    ensures |SensorWins(analytics)| == 1 ==>
      SensorWins(analytics)[0] == SensorWinOf(|AffectedChannels(analytics.sensorHealth.value.issues)|)
  {
    if analytics.sensorHealth.Some? {
      AffectedWhenHigh(analytics.sensorHealth.value.issues);
    }
  }

  // ---------------------------------------------------------------------
  // 3. Anomaly patterns

  function AnomalyWinOf(channelName: string, e: A.AnomalyEvent, rate: real): (w: QuickWin)
    ensures w.title == InvestigateSpikes(channelName) && w.winType == AnomalyWin
    ensures w.priority == HighPriority <==> e.totalExcessKwh > 50.0
    ensures w.priority != LowPriority
    ensures w.impact.weeklyKwh == Kwh(e.totalExcessKwh) && w.impact.weeklyCost == W.Cost(e.totalExcessKwh, rate)
    ensures w.impact.annualCost == w.impact.weeklyCost * 52.0
  {
    QuickWin(InvestigateSpikes(channelName), AnomalyWin,
             if e.totalExcessKwh > 50.0 then HighPriority else MediumPriority,
             Impact(Kwh(e.totalExcessKwh), W.Cost(e.totalExcessKwh, rate),
                    W.Cost(e.totalExcessKwh, rate) * 52.0, NoNote),
             MediumConfidence)
  }

  /** The anomaly win is built from the first event of the first result. */
  function AnomalyWins(analytics: Analytics, config: Config): (r: seq<QuickWin>)
    ensures |r| <= 1
    ensures |r| == 1 <==>
      (analytics.anomalies.Some? && analytics.anomalies.value.totalAnomalyEvents > 0
       && |analytics.anomalies.value.results| > 0 && |analytics.anomalies.value.results[0].events| > 0)
    ensures |r| == 1 ==>
      r[0] == AnomalyWinOf(analytics.anomalies.value.results[0].channelName,
                           analytics.anomalies.value.results[0].events[0], config.tariff.defaultRate)
  {
    match analytics.anomalies
    case Some(a) =>
      if a.totalAnomalyEvents > 0 && |a.results| > 0 && |a.results[0].events| > 0
      then [AnomalyWinOf(a.results[0].channelName, a.results[0].events[0], config.tariff.defaultRate)]
      else []
    case None => []
  }

  // ---------------------------------------------------------------------
  // 4. Demand spikes

  /** Python's `if demand_charge`: a missing or zero charge gives the
      generic remark. */
  function DemandNoteOf(peakPower: real, demandCharge: Option<real>): (n: DemandNote)
    ensures n.DemandChargeNote? <==> demandCharge.Some? && demandCharge.value != 0.0
    ensures n.DemandChargeNote? ==> n.monthly == W.Cost(peakPower, demandCharge.value)
    ensures !n.DemandChargeNote? ==> n == GenericDemandNote
  {
    if demandCharge.Some? && demandCharge.value != 0.0
    then DemandChargeNote(W.Cost(peakPower, demandCharge.value))
    else GenericDemandNote
  }

  function SpikeWinOf(s: S.TopSpike, tariff: TariffConfig): (w: QuickWin)
    ensures w.title == ReduceDemandSpikes(s.channelName) && w.winType == SpikeWin
    ensures w.priority == MediumPriority
    ensures w.impact.weeklyKwh == Kwh(s.event.totalExcessKwh)
    ensures w.impact.weeklyCost == W.Cost(s.event.totalExcessKwh, tariff.defaultRate)
    ensures w.impact.annualCost == w.impact.weeklyCost * 52.0
    ensures w.impact.note == DemandNoteOf(s.event.peakPower, tariff.demandCharge)
  {
    QuickWin(ReduceDemandSpikes(s.channelName), SpikeWin, MediumPriority,
             Impact(Kwh(s.event.totalExcessKwh), W.Cost(s.event.totalExcessKwh, tariff.defaultRate),
                    W.Cost(s.event.totalExcessKwh, tariff.defaultRate) * 52.0,
                    DemandNoteOf(s.event.peakPower, tariff.demandCharge)),
             MediumConfidence)
  }

  /** The spike win is built from the first of the top spikes. */
  function SpikeWins(analytics: Analytics, config: Config): (r: seq<QuickWin>)
    ensures |r| <= 1
    ensures |r| == 1 <==> analytics.spikes.Some? && |analytics.spikes.value.topSpikes| > 0
    ensures |r| == 1 ==> r[0] == SpikeWinOf(analytics.spikes.value.topSpikes[0], config.tariff)
  {
    match analytics.spikes
    case Some(s) => if |s.topSpikes| > 0 then [SpikeWinOf(s.topSpikes[0], config.tariff)] else []
    case None => []
  }

  // ---------------------------------------------------------------------
  // 5. Flatlined sensors

  function IsFlatline(i: H.HealthIssue): bool
  {
    i.issueType == H.Flatline
  }

  /** The issues of the sensor-health result, none when it is missing. */
  function HealthIssues(analytics: Analytics): seq<H.HealthIssue>
  {
    match analytics.sensorHealth
    case Some(h) => h.issues
    case None => []
  }

  function FlatlineWinOf(detected: nat): (w: QuickWin)
    ensures w.title == CheckStuckSensors(detected) && w.winType == SensorHealthWin
    ensures w.priority == LowPriority && w.impact.weeklyKwh == NotApplicable
    ensures w.impact.weeklyCost == 0.0 && w.impact.annualCost == 0.0
  {
    QuickWin(CheckStuckSensors(detected), SensorHealthWin, LowPriority,
             Impact(NotApplicable, 0.0, 0.0, NoNote), HighConfidence)
  }

  function FlatlineWins(analytics: Analytics): seq<QuickWin>
  {
    var flat := Filter(HealthIssues(analytics), IsFlatline);
    if |flat| > 0 then [FlatlineWinOf(|flat|)] else []
  }

  /** A stuck-sensor win is emitted exactly when some issue is a flatline,
      and it counts the flatline issues. */
  lemma FlatlineWinsFacts(analytics: Analytics)
    ensures |FlatlineWins(analytics)| <= 1
    ensures |FlatlineWins(analytics)| == 1 <==> exists i :: i in HealthIssues(analytics) && i.issueType == H.Flatline
    ensures |FlatlineWins(analytics)| == 1 ==>
      FlatlineWins(analytics)[0] == FlatlineWinOf(|Filter(HealthIssues(analytics), IsFlatline)|)
  {
    var issues := HealthIssues(analytics);
    var flat := Filter(issues, IsFlatline);
    if exists i :: i in issues && i.issueType == H.Flatline {
      var i :| i in issues && i.issueType == H.Flatline;
      FilterMembership(issues, IsFlatline, i);
    }
    if |flat| > 0 {
      FilterMembership(issues, IsFlatline, flat[0]);
    }
  }

  // ---------------------------------------------------------------------
  // 6. Site-wide summary

  function SummaryWinOf(w: W.WasteAnalysis): (q: QuickWin)
    ensures q.title == OverallOpportunity && q.winType == SummaryWin && q.priority == HighPriority
    ensures q.impact.weeklyKwh == Kwh(w.totalExcessKwh) && q.impact.weeklyCost == w.totalExcessCost
    ensures q.impact.annualCost == w.estimatedAnnualCost
  {
    QuickWin(OverallOpportunity, SummaryWin, HighPriority,
             Impact(Kwh(w.totalExcessKwh), w.totalExcessCost, w.estimatedAnnualCost, NoNote), HighConfidence)
  }

  function SummaryWins(analytics: Analytics): (r: seq<QuickWin>)
    ensures |r| <= 1
    ensures |r| == 1 <==> analytics.afterHoursWaste.Some? && analytics.afterHoursWaste.value.totalExcessKwh > 0.0
    ensures |r| == 1 ==> r[0] == SummaryWinOf(analytics.afterHoursWaste.value)
  {
    match analytics.afterHoursWaste
    case Some(w) => if w.totalExcessKwh > 0.0 then [SummaryWinOf(w)] else []
    case None => []
  }

  // ---------------------------------------------------------------------
  // Ordering and truncation

  /** The candidate wins in the order they are generated. */
  function Candidates(analytics: Analytics, config: Config): seq<QuickWin>
  {
    AfterHoursWins(analytics, config) + SensorWins(analytics) + AnomalyWins(analytics, config)
      + SpikeWins(analytics, config) + FlatlineWins(analytics) + SummaryWins(analytics)
  }

  /** `priority_order`; the fallback rank 3 of the source cannot arise,
      because every win carries one of the three priorities. */
  function Rank(p: Priority): (r: real)
    ensures 0.0 <= r <= 2.0
    ensures (p == HighPriority <==> r == 0.0) && (p == LowPriority <==> r == 2.0)
  {
    match p
    case HighPriority => 0.0
    case MediumPriority => 1.0
    case LowPriority => 2.0
  }

  /** The impact a win is ordered by: 'N/A' counts as zero. */
  function ImpactKwh(k: WeeklyKwh): real
  {
    match k
    case Kwh(x) => x
    case NotApplicable => 0.0
  }

  /** `(priority_rank, -impact_kwh)`. */
  function WinKey(w: QuickWin): Key
  {
    Key(Rank(w.priority), -ImpactKwh(w.impact.weeklyKwh))
  }

  function QuickWinsOf(analytics: Analytics, config: Config): seq<QuickWin>
  {
    Take(SortBy(Candidates(analytics, config), WinKey), config.quickWins.maxCount)
  }

  /** There are at most eight candidates: three after-hours wins and one of
      each other category. */
  lemma CandidateCount(analytics: Analytics, config: Config)
    ensures |Candidates(analytics, config)| <= 8
  {
    SensorWinsFacts(analytics);
    FlatlineWinsFacts(analytics);
  }

  /** A prefix of a sequence sorted by `WinKey` is ordered by priority and,
      within one priority, by non-increasing weekly kWh. */
  lemma SortedWinsOrder(s: seq<QuickWin>, n: int)
    requires SortedBy(s, WinKey)
    ensures var r := Take(s, n);
      && (forall i, j :: 0 <= i < j < |r| ==> Rank(r[i].priority) <= Rank(r[j].priority))
      && (forall i, j :: 0 <= i < j < |r| && r[i].priority == r[j].priority ==>
            ImpactKwh(r[i].impact.weeklyKwh) >= ImpactKwh(r[j].impact.weeklyKwh))
  {
    var r := Take(s, n);
    forall i, j | 0 <= i < j < |r| ensures Rank(r[i].priority) <= Rank(r[j].priority) {
      assert !Before(WinKey(s[j]), WinKey(s[i]));
    }
    forall i, j | 0 <= i < j < |r| && r[i].priority == r[j].priority
      ensures ImpactKwh(r[i].impact.weeklyKwh) >= ImpactKwh(r[j].impact.weeklyKwh)
    {
      assert !Before(WinKey(s[j]), WinKey(s[i]));
    }
  }

  /** The result is ordered by priority (high, then medium, then low), and
      within one priority by non-increasing weekly kWh; it holds the first
      `maxCount` of the ordered candidates; it is drawn from the candidates;
      and candidates with equal keys keep their generation order. */
  lemma QuickWinsOrder(analytics: Analytics, config: Config, k: Key)
    ensures var c := Candidates(analytics, config); var r := QuickWinsOf(analytics, config);
      && (forall i, j :: 0 <= i < j < |r| ==> Rank(r[i].priority) <= Rank(r[j].priority))
      && (forall i, j :: 0 <= i < j < |r| && r[i].priority == r[j].priority ==>
            ImpactKwh(r[i].impact.weeklyKwh) >= ImpactKwh(r[j].impact.weeklyKwh))
      && r == SortBy(c, WinKey)[..|r|]
      && (0 <= config.quickWins.maxCount ==>
            |r| == (if config.quickWins.maxCount < |c| then config.quickWins.maxCount else |c|))
      && multiset(r) <= multiset(c)
      && Filter(SortBy(c, WinKey), HasKey(WinKey, k)) == Filter(c, HasKey(WinKey, k))
  {
    var c := Candidates(analytics, config);
    SortBySorted(c, WinKey);
    SortedWinsOrder(SortBy(c, WinKey), config.quickWins.maxCount);
    TakeSubMultiset(SortBy(c, WinKey), config.quickWins.maxCount);
    SortByStable(c, WinKey, k);
  }

  // ---------------------------------------------------------------------
  // generate_quick_wins

  /** Block 1: a win per qualifying meter among the first three. */
  method AddAfterHoursWins(analytics: Analytics, config: Config) returns (wins: seq<QuickWin>)
    ensures wins == AfterHoursWins(analytics, config)
  {
    wins := [];
    var meters := ConsideredMeters(analytics);
    var q := Qualifies(config.quickWins.minWeeklyImpact);
    for i := 0 to |meters|
      invariant wins == Map(Filter(meters[..i], q), AfterHoursWinOf)
    {
      MapFilterPrefix(meters, i, q, AfterHoursWinOf);
      var meter := meters[i];
      if meter.excessAfterHoursKwh >= config.quickWins.minWeeklyImpact {
        wins := wins + [AfterHoursWinOf(meter)];
      }
    }
    assert meters[..|meters|] == meters;
  }

  /** Block 2: the communication win. */
  method AddSensorWin(analytics: Analytics) returns (wins: seq<QuickWin>)
    ensures wins == SensorWins(analytics)
  {
    wins := [];
    if analytics.sensorHealth.Some? && analytics.sensorHealth.value.highSeverity > 0 {
      var affected := AffectedChannels(analytics.sensorHealth.value.issues);
      if |affected| > 0 {
        wins := [SensorWinOf(|affected|)];
      }
    }
  }

  /** Block 3: the anomaly win. */
  method AddAnomalyWin(analytics: Analytics, config: Config) returns (wins: seq<QuickWin>)
    ensures wins == AnomalyWins(analytics, config)
  {
    wins := [];
    if analytics.anomalies.Some? && analytics.anomalies.value.totalAnomalyEvents > 0 {
      var results := analytics.anomalies.value.results;
      if |results| > 0 && |results[0].events| > 0 {
        wins := [AnomalyWinOf(results[0].channelName, results[0].events[0], config.tariff.defaultRate)];
      }
    }
  }

  /** Block 4: the demand-spike win. */
  method AddSpikeWin(analytics: Analytics, config: Config) returns (wins: seq<QuickWin>)
    ensures wins == SpikeWins(analytics, config)
  {
    wins := [];
    if analytics.spikes.Some? && |analytics.spikes.value.topSpikes| > 0 {
      wins := [SpikeWinOf(analytics.spikes.value.topSpikes[0], config.tariff)];
    }
  }

  /** Block 5: the stuck-sensor win. */
  method AddFlatlineWin(analytics: Analytics) returns (wins: seq<QuickWin>)
    ensures wins == FlatlineWins(analytics)
  {
    wins := [];
    var flat := Filter(HealthIssues(analytics), IsFlatline);
    if |flat| > 0 {
      wins := [FlatlineWinOf(|flat|)];
    }
  }

  /** Block 6: the site-wide summary win. */
  method AddSummaryWin(analytics: Analytics) returns (wins: seq<QuickWin>)
    ensures wins == SummaryWins(analytics)
  {
    wins := [];
    if analytics.afterHoursWaste.Some? && analytics.afterHoursWaste.value.totalExcessKwh > 0.0 {
      wins := [SummaryWinOf(analytics.afterHoursWaste.value)];
    }
  }

  /** `generate_quick_wins`: the wins are appended category by category,
      sorted by `(rank, -weeklyKwh)` and cut to `maxCount`. */
  method GenerateQuickWins(analytics: Analytics, config: Config) returns (wins: seq<QuickWin>)
    ensures wins == QuickWinsOf(analytics, config)
  {
    wins := AddAfterHoursWins(analytics, config);
    var more := AddSensorWin(analytics);
    wins := wins + more;
    more := AddAnomalyWin(analytics, config);
    wins := wins + more;
    more := AddSpikeWin(analytics, config);
    wins := wins + more;
    more := AddFlatlineWin(analytics);
    wins := wins + more;
    more := AddSummaryWin(analytics);
    wins := wins + more;
    wins := SortBy(wins, WinKey);
    wins := Take(wins, config.quickWins.maxCount);
  }
}
