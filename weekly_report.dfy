/** The summary helpers of the weekly report: the headline, risk and
    opportunity lists, the average data completeness and the potential
    savings. Each message is represented by the values it is formatted
    from. */
module WeeklyReport {
  import opened Seqs
  import opened Readings
  import W = AfterHoursWaste
  import H = SensorHealth
  import A = AnomalyDetection
  import S = SpikeDetection

  /** The four analysis results the report summary reads. */
  datatype ReportAnalytics = ReportAnalytics(
    sensorHealth: H.SiteHealth, afterHoursWaste: W.WasteAnalysis,
    anomalies: A.AnomalyAnalysis, spikes: S.SpikeAnalysis)

  // ---------------------------------------------------------------------
  // generate_headline

  datatype Headline =
    | CriticalDataIssues(count: nat)
    | AfterHoursWasteCost(weeklyCost: real)
    | UnusualEvents(count: nat)
    | NoSignificantIssues

  /** The position of a headline in the fixed order. */
  function HeadlineRank(h: Headline): nat
  {
    match h
    case CriticalDataIssues(_) => 0
    case AfterHoursWasteCost(_) => 1
    case UnusualEvents(_) => 2
    case NoSignificantIssues => 3
  }

  predicate AnyHeadline(a: ReportAnalytics)
  {
    a.sensorHealth.highSeverity > 0 || a.afterHoursWaste.totalExcessKwh > 0.0
      || a.anomalies.totalAnomalyEvents > 5
  }

  /** `generate_headline`: the sensor, after-hours and anomaly headlines in
      that order, each when its condition holds, or the single fallback. */
  method GenerateHeadline(a: ReportAnalytics) returns (headlines: seq<Headline>)
    ensures |headlines| > 0
    ensures headlines == [NoSignificantIssues] <==> !AnyHeadline(a)
    ensures forall i, j :: 0 <= i < j < |headlines| ==> HeadlineRank(headlines[i]) < HeadlineRank(headlines[j])
    ensures CriticalDataIssues(a.sensorHealth.highSeverity) in headlines <==> a.sensorHealth.highSeverity > 0
    ensures AfterHoursWasteCost(a.afterHoursWaste.totalExcessCost) in headlines
        <==> a.afterHoursWaste.totalExcessKwh > 0.0
    ensures UnusualEvents(a.anomalies.totalAnomalyEvents) in headlines <==> a.anomalies.totalAnomalyEvents > 5
    ensures forall h :: h in headlines ==>
      h in [CriticalDataIssues(a.sensorHealth.highSeverity), AfterHoursWasteCost(a.afterHoursWaste.totalExcessCost),
            UnusualEvents(a.anomalies.totalAnomalyEvents), NoSignificantIssues]
  {
    headlines := [];
    if a.sensorHealth.highSeverity > 0 {
      headlines := headlines + [CriticalDataIssues(a.sensorHealth.highSeverity)];
    }
    if a.afterHoursWaste.totalExcessKwh > 0.0 {
      headlines := headlines + [AfterHoursWasteCost(a.afterHoursWaste.totalExcessCost)];
    }
    if a.anomalies.totalAnomalyEvents > 5 {
      headlines := headlines + [UnusualEvents(a.anomalies.totalAnomalyEvents)];
    }
    assert AnyHeadline(a) <==> headlines != [];
    assert NoSignificantIssues !in headlines;
    if headlines == [] {
      headlines := [NoSignificantIssues];
    }
  }

  // ---------------------------------------------------------------------
  // identify_top_risks

  datatype Risk =
    | MissingDataOn(channels: nat)
    | UnexpectedConsumption(kwh: real)
    | HighAfterHoursWaste(kwh: real)
    | NoSignificantRisks

  function RiskRank(r: Risk): nat
  {
    match r
    case MissingDataOn(_) => 0
    case UnexpectedConsumption(_) => 1
    case HighAfterHoursWaste(_) => 2
    case NoSignificantRisks => 3
  }

  predicate AnyRisk(a: ReportAnalytics)
  {
    a.sensorHealth.highSeverity > 0 || a.anomalies.totalExcessKwh > 100.0
      || a.afterHoursWaste.totalExcessKwh > 100.0
  }

  /** `identify_top_risks`: high-severity data issues, large anomalies and
      large after-hours waste, in that order, or the single fallback. */
  method IdentifyTopRisks(a: ReportAnalytics) returns (risks: seq<Risk>)
    ensures |risks| > 0
    ensures risks == [NoSignificantRisks] <==> !AnyRisk(a)
    ensures forall i, j :: 0 <= i < j < |risks| ==> RiskRank(risks[i]) < RiskRank(risks[j])
    ensures MissingDataOn(a.sensorHealth.highSeverity) in risks <==> a.sensorHealth.highSeverity > 0
    ensures UnexpectedConsumption(a.anomalies.totalExcessKwh) in risks <==> a.anomalies.totalExcessKwh > 100.0
    ensures HighAfterHoursWaste(a.afterHoursWaste.totalExcessKwh) in risks
        <==> a.afterHoursWaste.totalExcessKwh > 100.0
    ensures forall r :: r in risks ==>
      r in [MissingDataOn(a.sensorHealth.highSeverity), UnexpectedConsumption(a.anomalies.totalExcessKwh),
            HighAfterHoursWaste(a.afterHoursWaste.totalExcessKwh), NoSignificantRisks]
  {
    risks := [];
    if a.sensorHealth.highSeverity > 0 {
      risks := risks + [MissingDataOn(a.sensorHealth.highSeverity)];
    }
    if a.anomalies.totalExcessKwh > 100.0 {
      risks := risks + [UnexpectedConsumption(a.anomalies.totalExcessKwh)];
    }
    if a.afterHoursWaste.totalExcessKwh > 100.0 {
      risks := risks + [HighAfterHoursWaste(a.afterHoursWaste.totalExcessKwh)];
    }
    assert AnyRisk(a) <==> risks != [];
    assert NoSignificantRisks !in risks;
    if risks == [] {
      risks := [NoSignificantRisks];
    }
  }

  // ---------------------------------------------------------------------
  // identify_top_opportunities

  datatype Opportunity =
    | AfterHoursOptimization(annualCost: real)
    | DemandSpikeReduction(events: nat)
    | ContinueMonitoring

  function OpportunityRank(o: Opportunity): nat
  {
    match o
    case AfterHoursOptimization(_) => 0
    case DemandSpikeReduction(_) => 1
    case ContinueMonitoring => 2
  }

  predicate AnyOpportunity(a: ReportAnalytics)
  {
    a.afterHoursWaste.totalExcessKwh > 50.0 || a.spikes.totalSpikeEvents > 0
  }

  /** `identify_top_opportunities`: after-hours optimisation and spike
      reduction, in that order, or the single fallback. */
  method IdentifyTopOpportunities(a: ReportAnalytics) returns (opportunities: seq<Opportunity>)
    ensures |opportunities| > 0
    ensures opportunities == [ContinueMonitoring] <==> !AnyOpportunity(a)
    ensures forall i, j :: 0 <= i < j < |opportunities| ==>
      OpportunityRank(opportunities[i]) < OpportunityRank(opportunities[j])
    ensures AfterHoursOptimization(a.afterHoursWaste.estimatedAnnualCost) in opportunities
        <==> a.afterHoursWaste.totalExcessKwh > 50.0
    ensures DemandSpikeReduction(a.spikes.totalSpikeEvents) in opportunities <==> a.spikes.totalSpikeEvents > 0
    ensures forall o :: o in opportunities ==>
      o in [AfterHoursOptimization(a.afterHoursWaste.estimatedAnnualCost),
            DemandSpikeReduction(a.spikes.totalSpikeEvents), ContinueMonitoring]
  {
    opportunities := [];
    if a.afterHoursWaste.totalExcessKwh > 50.0 {
      opportunities := opportunities + [AfterHoursOptimization(a.afterHoursWaste.estimatedAnnualCost)];
    }
    if a.spikes.totalSpikeEvents > 0 {
      opportunities := opportunities + [DemandSpikeReduction(a.spikes.totalSpikeEvents)];
    }
    assert AnyOpportunity(a) <==> opportunities != [];
    assert ContinueMonitoring !in opportunities;
    if opportunities == [] {
      opportunities := [ContinueMonitoring];
    }
  }

  // ---------------------------------------------------------------------
  // calculate_avg_completeness

  /** Readings expected in a week: seven days of 96 intervals. */
  const ExpectedWeeklyReadings: nat := 672

  /** One channel's completeness, in percent of the expected readings. */
  function ChannelCompleteness(c: Channel): real
  {
    (|c.readings| as real / ExpectedWeeklyReadings as real) * 100.0
  }

  function TotalCompleteness(channels: seq<Channel>): real
  {
    Sum(Map(channels, ChannelCompleteness))
  }

  /** The mean completeness over the channels, 0 for none. */
  function AvgCompleteness(channels: seq<Channel>): real
  {
    if |channels| == 0 then 0.0 else TotalCompleteness(channels) / |channels| as real
  }

  /** `calculate_avg_completeness`: the completeness of each channel is
      accumulated and the total divided by the number of channels. */
  method CalculateAvgCompleteness(channels: seq<Channel>) returns (avg: real)
    ensures avg == AvgCompleteness(channels)
  {
    if |channels| == 0 {
      return 0.0;
    }
    var total := 0.0;
    for i := 0 to |channels|
      invariant total == Sum(Map(channels[..i], ChannelCompleteness))
    {
      SumMapPrefix(channels, i, ChannelCompleteness);
      var actual := |channels[i].readings|;
      var completeness := (actual as real / ExpectedWeeklyReadings as real) * 100.0;
      total := total + completeness;
    }
    assert channels[..|channels|] == channels;
    avg := total / |channels| as real;
  }

  /** Every channel's completeness is non-negative, and at most 100 when it
      has at most the expected number of readings. */
  lemma ChannelCompletenessBounds(c: Channel)
    ensures 0.0 <= ChannelCompleteness(c)
    ensures |c.readings| <= ExpectedWeeklyReadings ==> ChannelCompleteness(c) <= 100.0
    ensures |c.readings| == ExpectedWeeklyReadings ==> ChannelCompleteness(c) == 100.0
  {
  }

  /** The average is non-negative; it is at most 100 when no channel has
      more than the expected readings, and exactly 100 when every channel
      has exactly the expected readings. */
  lemma AvgCompletenessBounds(channels: seq<Channel>)
    ensures 0.0 <= AvgCompleteness(channels)
    ensures (forall c :: c in channels ==> |c.readings| <= ExpectedWeeklyReadings) ==>
      AvgCompleteness(channels) <= 100.0
    ensures |channels| > 0 && (forall c :: c in channels ==> |c.readings| == ExpectedWeeklyReadings) ==>
      AvgCompleteness(channels) == 100.0
  {
    var values := Map(channels, ChannelCompleteness);
    var atMost := forall c :: c in channels ==> |c.readings| <= ExpectedWeeklyReadings;
    var exact := forall c :: c in channels ==> |c.readings| == ExpectedWeeklyReadings;
    forall k | 0 <= k < |values|
      ensures 0.0 <= values[k]
      ensures atMost ==> values[k] <= 100.0
      ensures exact ==> values[k] == 100.0
    {
      assert channels[k] in channels;
      ChannelCompletenessBounds(channels[k]);
    }
    if |channels| > 0 {
      MeanBounds(values, 100.0);
    }
  }

  /** The mean of non-negative terms is non-negative, at most `c` when each
      term is, and `c` when each term is. */
  lemma MeanBounds(values: seq<real>, c: real)
    requires |values| > 0
    requires forall k :: 0 <= k < |values| ==> 0.0 <= values[k]
    ensures 0.0 <= Sum(values) / |values| as real
    ensures (forall k :: 0 <= k < |values| ==> values[k] <= c) ==> Sum(values) / |values| as real <= c
    ensures (forall k :: 0 <= k < |values| ==> values[k] == c) ==> Sum(values) / |values| as real == c
  {
    var n := |values| as real;
    SumNonNegative(values);
    MeanNonNegative(Sum(values), n);
    if forall k :: 0 <= k < |values| ==> values[k] <= c {
      SumAtMost(values, c);
      MeanAtMost(Sum(values), n, c);
    }
    if forall k :: 0 <= k < |values| ==> values[k] == c {
      SumOfConstant(values, c);
      MeanOfConstantTotal(n, c);
    }
  }

  lemma MeanAtMost(total: real, n: real, bound: real)
    requires n > 0.0 && total <= n * bound
    ensures total / n <= bound
  {
  }

  lemma MeanOfConstantTotal(n: real, c: real)
    requires n > 0.0
    ensures (n * c) / n == c
  {
  }

  lemma MeanNonNegative(total: real, n: real)
    requires n > 0.0 && total >= 0.0
    ensures total / n >= 0.0
  {
  }

  // ---------------------------------------------------------------------
  // totalPotentialSavings

  datatype Savings = Savings(weeklyKwh: real, weeklyCost: real, estimatedAnnual: real)

  /** The weekly saving is the after-hours waste plus the anomalous excess
      priced at the default rate; the annual figure is 52 weeks of it. */
  function PotentialSavings(waste: W.WasteAnalysis, anomalies: A.AnomalyAnalysis, rate: real): (s: Savings)
    ensures s.weeklyKwh == waste.totalExcessKwh + anomalies.totalExcessKwh
    ensures s.weeklyCost == waste.totalExcessCost + W.Cost(anomalies.totalExcessKwh, rate)
    ensures s.estimatedAnnual == s.weeklyCost * 52.0
  {
    var weeklyCost := waste.totalExcessCost + W.Cost(anomalies.totalExcessKwh, rate);
    Savings(waste.totalExcessKwh + anomalies.totalExcessKwh, weeklyCost, weeklyCost * 52.0)
  }

  /** With a non-negative anomalous excess and rate, the savings are at
      least the after-hours figures: the annual estimate is at least the
      after-hours annual cost, which is 52 weeks of its weekly cost. */
  lemma SavingsCoverAfterHours(waste: W.WasteAnalysis, anomalies: A.AnomalyAnalysis, rate: real)
    requires anomalies.totalExcessKwh >= 0.0 && rate >= 0.0
    requires waste.estimatedAnnualCost == waste.totalExcessCost * 52.0
    ensures var s := PotentialSavings(waste, anomalies, rate);
      s.weeklyKwh >= waste.totalExcessKwh && s.weeklyCost >= waste.totalExcessCost
      && s.estimatedAnnual >= waste.estimatedAnnualCost
  {
    W.CostNonNegative(anomalies.totalExcessKwh, rate);
  }
}
