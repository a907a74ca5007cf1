/** The report configuration: the defaults, the one-level-deep merge of a
    user configuration over them, and the business-hours test.

    The configuration exists in two forms. `DefaultConfigValue` and
    `MergeConfig` work on the JSON-like values that `merge_config` handles;
    `Config` is the typed record the detectors read, obtained by
    `DecodeConfig`, which fails where reading a setting in Python would raise
    (a missing key or a value of the wrong kind). */
module ReportConfig {
  import opened Seqs
  import opened Values
  import opened DateUtils

  // ---------------------------------------------------------------------
  // DEFAULT_CONFIG

  function HoursValue(start: int, end: int): Value
  {
    Dict(map["start" := Int(start), "end" := Int(end)])
  }

  /** Monday to Friday 07:00 to 18:00; `None` for the weekend. */
  const DefaultBusinessHours: map<string, Value> := map[
    "monday" := HoursValue(7, 18),
    "tuesday" := HoursValue(7, 18),
    "wednesday" := HoursValue(7, 18),
    "thursday" := HoursValue(7, 18),
    "friday" := HoursValue(7, 18),
    "saturday" := Null,
    "sunday" := Null
  ]

  const DefaultSensorHealth: map<string, Value> := map[
    "gapMultiplier" := Int(2),
    "staleHours" := Int(2),
    "missingThresholdPct" := Int(10),
    "flatlineHours" := Int(6),
    "flatlineVarianceThreshold" := Num(0.01)
  ]

  const DefaultAfterHours: map<string, Value> := map[
    "baselinePercentile" := Int(5),
    "minPowerThreshold" := Num(0.1),
    "minExcessKwh" := Int(10)
  ]

  const DefaultAnomaly: map<string, Value> := map[
    "iqrMultiplier" := Int(3),
    "zScoreThreshold" := Int(3),
    "minConsecutiveIntervals" := Int(3),
    "minExcessKwh" := Int(5)
  ]

  const DefaultSpike: map<string, Value> := map[
    "baselinePercentile" := Int(95),
    "multiplier" := Num(1.5),
    "submeterMinKw" := Int(5),
    "siteMinKw" := Int(20),
    "minDuration" := Int(1)
  ]

  const DefaultQuickWins: map<string, Value> := map["maxCount" := Int(10), "minWeeklyImpact" := Int(10)]

  const DefaultTariff: map<string, Value> := map["defaultRate" := Num(0.12), "demandCharge" := Null]

  /** `DEFAULT_CONFIG` */
  const DefaultConfigValue: map<string, Value> := map[
    "timezone" := Str("America/New_York"),
    "businessHours" := Dict(DefaultBusinessHours),
    "intervalPreferences" := List([Int(900), Int(1800), Int(3600)]),
    "baseline" := Dict(map["weeksCount" := Int(4), "minCompleteness" := Int(70)]),
    "sensorHealth" := Dict(DefaultSensorHealth),
    "afterHours" := Dict(DefaultAfterHours),
    "anomaly" := Dict(DefaultAnomaly),
    "spike" := Dict(DefaultSpike),
    "quickWins" := Dict(DefaultQuickWins),
    "tariff" := Dict(DefaultTariff),
    "output" := Dict(map[
      "includeCharts" := Bool(true),
      "includeRawData" := Bool(false),
      "precision" := Int(2)])
  ]

  // ---------------------------------------------------------------------
  // merge_config

  /** What one user entry `key: value` becomes: two dicts are merged with the
      user's sub-keys winning (`{**default, **user}`); anything else replaces
      the default outright. */
  function MergeEntry(defaults: map<string, Value>, key: string, value: Value): Value
  {
    if key in defaults && defaults[key].Dict? && value.Dict?
    then Dict(defaults[key].entries + value.entries)
    else value
  }

  /** The merged configuration: every default key and every user key, the
      user's entries merged as `MergeEntry` says. */
  function Merged(defaults: map<string, Value>, user: map<string, Value>): (r: map<string, Value>)
    ensures r.Keys == defaults.Keys + user.Keys
  {
    map k | k in defaults.Keys + user.Keys ::
      if k in user then MergeEntry(defaults, k, user[k]) else defaults[k]
  }

  /** The loop of `merge_config`: a copy of `defaults`, then each user entry
      in turn. A Python dict visits each key once, so when a key is reached
      the copy still holds its default. */
  method MergeOver(defaults: map<string, Value>, user: map<string, Value>) returns (config: map<string, Value>)
    ensures config == Merged(defaults, user)
  {
    config := defaults;
    var pending := user.Keys;
    while pending != {}
      invariant pending <= user.Keys
      invariant config == Merged(defaults, user - pending)
      decreases pending
    {
      var key :| key in pending;
      var value := user[key];
      MergeStep(defaults, user, pending, key);
      if key in config && config[key].Dict? && value.Dict? {
        config := config[key := Dict(config[key].entries + value.entries)];
      } else {
        config := config[key := value];
      }
      pending := pending - {key};
    }
    assert user - {} == user;
  }

  /** Handling `key` moves it from the pending keys to the merged ones. */
  lemma MergeStep(defaults: map<string, Value>, user: map<string, Value>, pending: set<string>, key: string)
    requires pending <= user.Keys && key in pending
    ensures var before := Merged(defaults, user - pending);
      && (key in before <==> key in defaults)
      && (key in defaults ==> before[key] == defaults[key])
      && Merged(defaults, user - (pending - {key}))
         == before[key := MergeEntry(defaults, key, user[key])]
  {
    var before := Merged(defaults, user - pending);
    var after := Merged(defaults, user - (pending - {key}));
    var expected := before[key := MergeEntry(defaults, key, user[key])];
    assert after.Keys == expected.Keys;
    forall k | k in after ensures after[k] == expected[k] {
      if k == key {
        assert k in user - (pending - {key});
      } else if k in user - (pending - {key}) {
        assert k in user - pending;
      } else {
        assert k !in user - pending;
      }
    }
  }

  /** `merge_config(user_config)`: `None` stands for no overrides. */
  method MergeConfig(userConfig: Option<map<string, Value>>) returns (config: map<string, Value>)
    ensures userConfig.None? ==> config == DefaultConfigValue
    ensures userConfig.Some? ==> config == Merged(DefaultConfigValue, userConfig.value)
  {
    var user := if userConfig.Some? then userConfig.value else map[];
    config := MergeOver(DefaultConfigValue, user);
    MergedWithNothing(DefaultConfigValue);
  }

  /** No overrides leave the defaults as they are. */
  lemma MergedWithNothing(defaults: map<string, Value>)
    ensures Merged(defaults, map[]) == defaults
  {
    var r := Merged(defaults, map[]);
    assert r.Keys == defaults.Keys;
  }

  /** A dict given for a dict-valued setting overrides it key by key: the
      user's sub-keys win and the sub-keys the user leaves out keep their
      default values. */
  lemma MergedNestedDict(defaults: map<string, Value>, user: map<string, Value>, key: string, sub: string)
    requires key in defaults && defaults[key].Dict?
    requires key in user && user[key].Dict?
    ensures var r := Merged(defaults, user)[key];
      && r.Dict? && r.entries.Keys == defaults[key].entries.Keys + user[key].entries.Keys
      && (sub in user[key].entries ==> r.entries[sub] == user[key].entries[sub])
      && (sub in defaults[key].entries && sub !in user[key].entries ==>
            r.entries[sub] == defaults[key].entries[sub])
  {
  }

  /** Any other user value, and any key the defaults do not have, is taken
      as given. */
  lemma MergedReplaces(defaults: map<string, Value>, user: map<string, Value>, key: string)
    requires key in user
    requires key !in defaults || !defaults[key].Dict? || !user[key].Dict?
    ensures Merged(defaults, user)[key] == user[key]
  {
  }

  /** Settings the user does not mention keep their defaults. */
  lemma MergedKeepsDefaults(defaults: map<string, Value>, user: map<string, Value>, key: string)
    requires key in defaults && key !in user
    ensures Merged(defaults, user)[key] == defaults[key]
  {
  }

  /** Overriding one anomaly threshold keeps the other anomaly thresholds
      and every other section at their defaults. */
  lemma OverrideOneThreshold()
    ensures var r := Merged(DefaultConfigValue, map["anomaly" := Dict(map["iqrMultiplier" := Int(2)])]);
      && "anomaly" in r && r["anomaly"].Dict?
      && "iqrMultiplier" in r["anomaly"].entries && r["anomaly"].entries["iqrMultiplier"] == Int(2)
      && "minExcessKwh" in r["anomaly"].entries && r["anomaly"].entries["minExcessKwh"] == Int(5)
      && "spike" in r && r["spike"] == Dict(DefaultSpike)
  {
    var u := map["anomaly" := Dict(map["iqrMultiplier" := Int(2)])];
    DefaultAnomalySection();
    DefaultSpikeSection();
    assert "minExcessKwh" in DefaultAnomaly && "minExcessKwh" !in u["anomaly"].entries;
    MergedNestedDict(DefaultConfigValue, u, "anomaly", "iqrMultiplier");
    MergedNestedDict(DefaultConfigValue, u, "anomaly", "minExcessKwh");
    MergedKeepsDefaults(DefaultConfigValue, u, "spike");
  }

  // ---------------------------------------------------------------------
  // The typed configuration

  datatype Hours = Hours(start: real, end: real)

  datatype SensorHealthConfig = SensorHealthConfig(
    gapMultiplier: real, staleHours: real, missingThresholdPct: real,
    flatlineHours: real, flatlineVarianceThreshold: real)

  datatype AfterHoursConfig = AfterHoursConfig(
    baselinePercentile: real, minPowerThreshold: real, minExcessKwh: real)

  datatype AnomalyConfig = AnomalyConfig(
    iqrMultiplier: real, zScoreThreshold: real, minConsecutiveIntervals: real, minExcessKwh: real)

  datatype SpikeConfig = SpikeConfig(
    baselinePercentile: real, multiplier: real, submeterMinKw: real, siteMinKw: real, minDuration: real)

  /** `maxCount` slices a list, which needs a Python `int`. */
  datatype QuickWinsConfig = QuickWinsConfig(maxCount: int, minWeeklyImpact: real)

  datatype TariffConfig = TariffConfig(defaultRate: real, demandCharge: Option<real>)

  /** `businessHours` maps a lower-case day name to its opening hours, or to
      `None` for a day that is after-hours throughout. */
  datatype Config = Config(
    businessHours: map<string, Option<Hours>>,
    sensorHealth: SensorHealthConfig,
    afterHours: AfterHoursConfig,
    anomaly: AnomalyConfig,
    spike: SpikeConfig,
    quickWins: QuickWinsConfig,
    tariff: TariffConfig)

  /** Every weekday name has an entry, so the lookup in `IsBusinessHours`
      cannot raise `KeyError`. */
  predicate HasAllDays(c: Config)
  {
    forall i :: 0 <= i < |DayNames| ==> DayNames[i] in c.businessHours
  }

  const DefaultConfig: Config := Config(
    map d | d in DayNames :: if d == "saturday" || d == "sunday" then None else Some(Hours(7.0, 18.0)),
    SensorHealthConfig(2.0, 2.0, 10.0, 6.0, 0.01),
    AfterHoursConfig(5.0, 0.1, 10.0),
    AnomalyConfig(3.0, 3.0, 3.0, 5.0),
    SpikeConfig(95.0, 1.5, 5.0, 20.0, 1.0),
    QuickWinsConfig(10, 10.0),
    TariffConfig(0.12, None))

  /** The number under `key` of a section. */
  function NumberAt(section: map<string, Value>, key: string): Option<real>
  {
    if key in section then AsNumber(section[key]) else None
  }

  /** The sub-dict under `key` of the configuration. */
  function SectionAt(config: map<string, Value>, key: string): Option<map<string, Value>>
  {
    if key in config && config[key].Dict? then Some(config[key].entries) else None
  }

  /** A day's entry: `None`, or a dict with numeric `start` and `end`. */
  function DecodeHours(v: Value): Option<Option<Hours>>
  {
    if v.Null? then Some(None)
    else if v.Dict? && NumberAt(v.entries, "start").Some? && NumberAt(v.entries, "end").Some?
    then Some(Some(Hours(NumberAt(v.entries, "start").value, NumberAt(v.entries, "end").value)))
    else None
  }

  function DecodeBusinessHours(m: map<string, Value>): (r: Option<map<string, Option<Hours>>>)
    ensures r.Some? ==> forall i :: 0 <= i < |DayNames| ==> DayNames[i] in r.value
  {
    if forall i :: 0 <= i < |DayNames| ==> DayNames[i] in m && DecodeHours(m[DayNames[i]]).Some?
    then Some(map d | d in DayNames :: DecodeHours(m[d]).value)
    else None
  }

  function DecodeSensorHealth(s: map<string, Value>): Option<SensorHealthConfig>
  {
    var g, st, m, fh, fv := NumberAt(s, "gapMultiplier"), NumberAt(s, "staleHours"),
      NumberAt(s, "missingThresholdPct"), NumberAt(s, "flatlineHours"), NumberAt(s, "flatlineVarianceThreshold");
    if g.Some? && st.Some? && m.Some? && fh.Some? && fv.Some?
    then Some(SensorHealthConfig(g.value, st.value, m.value, fh.value, fv.value))
    else None
  }

  function DecodeAfterHours(s: map<string, Value>): Option<AfterHoursConfig>
  {
    var p, t, e := NumberAt(s, "baselinePercentile"), NumberAt(s, "minPowerThreshold"), NumberAt(s, "minExcessKwh");
    if p.Some? && t.Some? && e.Some? then Some(AfterHoursConfig(p.value, t.value, e.value)) else None
  }

  function DecodeAnomaly(s: map<string, Value>): Option<AnomalyConfig>
  {
    var m, z, c, e := NumberAt(s, "iqrMultiplier"), NumberAt(s, "zScoreThreshold"),
      NumberAt(s, "minConsecutiveIntervals"), NumberAt(s, "minExcessKwh");
    if m.Some? && z.Some? && c.Some? && e.Some? then Some(AnomalyConfig(m.value, z.value, c.value, e.value)) else None
  }

  function DecodeSpike(s: map<string, Value>): Option<SpikeConfig>
  {
    var p, m, sub, site, d := NumberAt(s, "baselinePercentile"), NumberAt(s, "multiplier"),
      NumberAt(s, "submeterMinKw"), NumberAt(s, "siteMinKw"), NumberAt(s, "minDuration");
    if p.Some? && m.Some? && sub.Some? && site.Some? && d.Some?
    then Some(SpikeConfig(p.value, m.value, sub.value, site.value, d.value))
    else None
  }

  function DecodeQuickWins(s: map<string, Value>): Option<QuickWinsConfig>
  {
    var w := NumberAt(s, "minWeeklyImpact");
    if "maxCount" in s && s["maxCount"].Int? && w.Some?
    then Some(QuickWinsConfig(s["maxCount"].i, w.value))
    else None
  }

  /** `demandCharge` may be `None` (or absent, as `.get` reads it). */
  function DecodeTariff(s: map<string, Value>): Option<TariffConfig>
  {
    var rate := NumberAt(s, "defaultRate");
    var dc := if "demandCharge" in s && !s["demandCharge"].Null? then AsNumber(s["demandCharge"]) else None;
    var absent := "demandCharge" !in s || s["demandCharge"].Null?;
    if rate.Some? && (absent || dc.Some?) then Some(TariffConfig(rate.value, dc)) else None
  }

  /** The typed configuration, or `None` where a detector reading a setting
      would raise. */
  function DecodeConfig(config: map<string, Value>): (r: Option<Config>)
    ensures r.Some? ==> HasAllDays(r.value)
  {
    var bh, sh, ah, an, sp, qw, ta := SectionAt(config, "businessHours"), SectionAt(config, "sensorHealth"),
      SectionAt(config, "afterHours"), SectionAt(config, "anomaly"), SectionAt(config, "spike"),
      SectionAt(config, "quickWins"), SectionAt(config, "tariff");
    if bh.None? || sh.None? || ah.None? || an.None? || sp.None? || qw.None? || ta.None? then None
    else
      var days, s, a, n, p, q, t := DecodeBusinessHours(bh.value), DecodeSensorHealth(sh.value),
        DecodeAfterHours(ah.value), DecodeAnomaly(an.value), DecodeSpike(sp.value),
        DecodeQuickWins(qw.value), DecodeTariff(ta.value);
      if days.Some? && s.Some? && a.Some? && n.Some? && p.Some? && q.Some? && t.Some?
      then Some(Config(days.value, s.value, a.value, n.value, p.value, q.value, t.value))
      else None
  }

  /** The typed defaults are exactly `DEFAULT_CONFIG` read as a `Config`. */
  lemma DefaultConfigDecodes()
    ensures DecodeConfig(DefaultConfigValue) == Some(DefaultConfig)
  {
    DefaultBusinessHoursSection();
    DefaultSensorHealthSection();
    DefaultAfterHoursSection();
    DefaultAnomalySection();
    DefaultSpikeSection();
    DefaultQuickWinsSection();
    DefaultTariffSection();
    DefaultDaysDecode();
    DefaultSensorHealthDecodes();
    DefaultAfterHoursDecodes();
    DefaultAnomalyDecodes();
    DefaultSpikeDecodes();
    DefaultQuickWinsDecodes();
    DefaultTariffDecodes();
  }

  lemma DefaultBusinessHoursSection()
    ensures SectionAt(DefaultConfigValue, "businessHours") == Some(DefaultBusinessHours)
  {
  }

  lemma DefaultSensorHealthSection()
    ensures SectionAt(DefaultConfigValue, "sensorHealth") == Some(DefaultSensorHealth)
  {
  }

  lemma DefaultAfterHoursSection()
    ensures SectionAt(DefaultConfigValue, "afterHours") == Some(DefaultAfterHours)
  {
  }

  lemma DefaultAnomalySection()
    ensures SectionAt(DefaultConfigValue, "anomaly") == Some(DefaultAnomaly)
  {
  }

  lemma DefaultSpikeSection()
    ensures SectionAt(DefaultConfigValue, "spike") == Some(DefaultSpike)
  {
  }

  lemma DefaultQuickWinsSection()
    ensures SectionAt(DefaultConfigValue, "quickWins") == Some(DefaultQuickWins)
  {
  }

  lemma DefaultTariffSection()
    ensures SectionAt(DefaultConfigValue, "tariff") == Some(DefaultTariff)
  {
  }

  lemma DefaultSensorHealthDecodes()
    ensures DecodeSensorHealth(DefaultSensorHealth) == Some(DefaultConfig.sensorHealth)
  {
  }

  lemma DefaultAfterHoursDecodes()
    ensures DecodeAfterHours(DefaultAfterHours) == Some(DefaultConfig.afterHours)
  {
  }

  lemma DefaultAnomalyDecodes()
    ensures DecodeAnomaly(DefaultAnomaly) == Some(DefaultConfig.anomaly)
  {
  }

  lemma DefaultSpikeDecodes()
    ensures DecodeSpike(DefaultSpike) == Some(DefaultConfig.spike)
  {
  }

  lemma DefaultQuickWinsDecodes()
    ensures DecodeQuickWins(DefaultQuickWins) == Some(DefaultConfig.quickWins)
  {
  }

  lemma DefaultTariffDecodes()
    ensures DecodeTariff(DefaultTariff) == Some(DefaultConfig.tariff)
  {
  }

  lemma DefaultDaysDecode()
    ensures DecodeBusinessHours(DefaultBusinessHours) == Some(DefaultConfig.businessHours)
  {
    var bh := DefaultBusinessHours;
    forall i | 0 <= i < |DayNames|
      ensures DayNames[i] in bh && DecodeHours(bh[DayNames[i]]) == Some(DefaultConfig.businessHours[DayNames[i]])
    {
      DefaultDay(i);
    }
    var m := map d | d in DayNames :: DecodeHours(bh[d]).value;
    forall d | d in m ensures m[d] == DefaultConfig.businessHours[d] {
      var i :| 0 <= i < |DayNames| && DayNames[i] == d;
    }
    assert m == DefaultConfig.businessHours;
  }

  lemma DefaultDay(i: int)
    requires 0 <= i < |DayNames|
    ensures DayNames[i] in DefaultBusinessHours
    ensures DecodeHours(DefaultBusinessHours[DayNames[i]]) == Some(DefaultConfig.businessHours[DayNames[i]])
  {
    if i < 5 {
      assert DefaultBusinessHours[DayNames[i]] == HoursValue(7, 18);
    }
  }

  // ---------------------------------------------------------------------
  // Business hours

  /** `get_day_of_week` */
  function GetDayOfWeek(d: DateTime): (r: string)
    ensures r == DayNames[Weekday(d)]
    ensures (r == "saturday" || r == "sunday") <==> Weekday(d) >= 5
  {
    DayName(d)
  }

  /** `is_business_hours`: false on a day whose entry is `None`, otherwise
      whether the hour lies in `[start, end)`. The day must have an entry. */
  function IsBusinessHours(d: DateTime, config: Config): (r: bool)
    requires DayNames[Weekday(d)] in config.businessHours
    ensures var hours := config.businessHours[DayNames[Weekday(d)]];
      r <==> hours.Some? && hours.value.start <= Hour(d) as real < hours.value.end
  {
    var hours := config.businessHours[DayName(d)];
    if hours.None? then false
    else hours.value.start <= Hour(d) as real < hours.value.end
  }

  /** Under the defaults, business hours are 07:00 to 17:59 on Monday to
      Friday and never at the weekend. */
  lemma DefaultBusinessHoursSchedule(d: DateTime)
    ensures IsBusinessHours(d, DefaultConfig) <==> Weekday(d) < 5 && 7 <= Hour(d) < 18
  {
    var day := DayNames[Weekday(d)];
    assert Weekday(d) < 5 ==> DefaultConfig.businessHours[day] == Some(Hours(7.0, 18.0));
    assert Weekday(d) >= 5 ==> DefaultConfig.businessHours[day] == None;
  }
}
