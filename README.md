# Energy analytics engine — a Dafny model

This project models the analytics core of an energy-reporting backend. It
covers:

- the statistics library: percentiles, descriptive statistics, IQR, z-scores,
  grouping, rolling windows, outliers, completeness and gap finding;
- the date helpers: hour of week, day and hour, the last complete week, the
  baseline period, interval hours and expected timestamps;
- the report configuration: the default configuration, the deep merge of a
  user configuration, and the business-hours test;
- the five analyses that turn a week of 15-minute power readings into report
  sections:
  - anomaly detection against an hour-of-week IQR baseline;
  - demand-spike detection against an hour-of-week p95 baseline;
  - sensor-health checks: gaps, completeness, flatline and stale data;
  - after-hours waste above an after-hours baseline;
  - the ranked quick-win recommendations built from the four analyses above;
- the headline, risk, opportunity, completeness and savings parts of the
  weekly report;
- the pure parts of the historical ingestion: reading validation, batch
  partition and the 24-hour window loop;
- the `{date}` templating of the pipeline configuration;
- the schema comparison and exit decision of the CSV validator.

Each module follows one source file.

| module | file | content |
|---|---|---|
| `Seqs` | `seqs.dfy` | generic sequence functions with their lemmas: filter, map, sums, Python slicing, flatten |
| `StableSort` | `stable_sort.dfy` | `sorted(..., key=...)` as a stable insertion sort on a lexicographic key; `reverse=True` is a negated key |
| `Values` | `values.dfy` | the JSON-like values of a configuration (`dict`, `list`, strings, numbers, `None`) |
| `DateUtils` | `date_utils.dfy` | timestamps as a UTC instant plus a fixed UTC offset, and the date helpers |
| `ReportConfig` | `report_config.dfy` | `DEFAULT_CONFIG`, `merge_config`, `is_business_hours`, and the decoding of a merged configuration into typed sections |
| `EventRuns` | `event_runs.dfy` | the split of a sequence into maximal runs of neighbours that "join", which both event groupers share |
| `Readings` | `readings.dfy` | readings, channels, baselines, the power of a reading and the baseline lookup |
| `StatsUtils` | `stats_utils.dfy` | `lib/stats_utils.py` |
| `AnomalyDetection` | `anomaly_detection.dfy` | `analyze/anomaly_detection.py` |
| `SpikeDetection` | `spike_detection.dfy` | `analytics/spike_detection.py` |
| `SensorHealth` | `sensor_health.dfy` | `analyze/sensor_health.py` |
| `AfterHoursWaste` | `after_hours_waste.dfy` | `analyze/after_hours_waste.py` |
| `QuickWins` | `quick_wins.dfy` | `analyze/quick_wins.py` |
| `WeeklyReport` | `weekly_report.dfy` | the pure parts of `deliver/generate_weekly_report.py` |
| `HistoricalIngestion` | `historical_ingestion.dfy` | the pure parts of `ingest/historical_ingestion.py` |
| `CliTemplating` | `cli_templating.dfy` | `_apply_date` of the pipeline CLI |
| `SchemaValidate` | `schema_validate.dfy` | `compare_schema` and the exit decision of the CSV validator |

## How the model is built

**Pure functions.** Computations without loops are Dafny functions. Each
has a named result and a contract that says what the result means.

**Loops as methods.** Each Python loop is a method with a `for` or `while`
loop. Its `ensures` ties the result to a specification function. Examples:
the baseline grouping, the event groupers, the gap finder, the flatline
scan, the merge loop and the after-hours accumulation. The specification
functions are recursive on a growing prefix of the input, the way the loop
consumes it, and their properties are proved as separate lemmas.

**Event grouping.** Both event groupers are proved equal to the runs of
`EventRuns.Runs` under their own "join" relation:

- anomalies join when they are less than two hours apart;
- spikes join when they are at most two reading intervals apart.

The facts about the events are then proved once about runs: nothing
dropped or reordered, joins inside a run, no join between runs.

**Sorts.** Every sort is `StableSort.SortBy`. It is proved to be a
permutation of its input, sorted by the key, and stable. Stability matters
for ties, such as quick wins of equal priority and impact.

**Numbers.** Python floats are modelled as Dafny `real`. Python integers
are modelled as `int`.

**Rows.** A method or lemma row in "## Model" also covers the
specification function it is proved against, for example
`AfterHoursWaste.BaselineKw` and `WasteOf`, `StatsUtils.GapsOf`,
`SpikeDetection.TopSpikes`, `SensorHealth.HealthSummary` and `GapIssues`,
and `CliTemplating.ReplaceAll`. What such a function computes is stated
by the contract of the member in that row.

**Call chain.** The `Analyze…` methods compose the per-channel analyses.
Their contracts state the sorted result lists and the summary totals as
functions of the channels, baselines and configuration.

## Model

| member | source | states |
|---|---|---|
| StatsUtils.SortedAscending | projects/argo-energy-solutions/backend/python_scripts/lib/stats_utils.py:61 | the sorted copy numpy's percentile interpolates on is in ascending order |
| StatsUtils.MinOf | projects/argo-energy-solutions/backend/python_scripts/lib/stats_utils.py:40 | the minimum is an element of the list and at most every element |
| StatsUtils.MaxOf | projects/argo-energy-solutions/backend/python_scripts/lib/stats_utils.py:41 | the maximum is an element of the list and at least every element |
| StatsUtils.SortedEnds | projects/argo-energy-solutions/backend/python_scripts/lib/stats_utils.py:61 | the first sorted element is the minimum and the last is the maximum |
| StatsUtils.Rank | projects/argo-energy-solutions/backend/python_scripts/lib/stats_utils.py:61 | the interpolation rank p/100·(n−1) lies in [0, n−1] |
| StatsUtils.RankMonotone | projects/argo-energy-solutions/backend/python_scripts/lib/stats_utils.py:61 | a larger p never gives a smaller rank |
| StatsUtils.Percentile | projects/argo-energy-solutions/backend/python_scripts/lib/stats_utils.py:47-61 | 0 for the empty list; otherwise a value between the minimum and the maximum |
| StatsUtils.PercentileZeroIsMin | projects/argo-energy-solutions/backend/python_scripts/lib/stats_utils.py:58-61 | p = 0 gives the minimum of a non-empty list |
| StatsUtils.PercentileHundredIsMax | projects/argo-energy-solutions/backend/python_scripts/lib/stats_utils.py:58-61 | p = 100 gives the maximum of a non-empty list |
| StatsUtils.PercentileMonotone | projects/argo-energy-solutions/backend/python_scripts/lib/stats_utils.py:58-61 | the percentile is non-decreasing in p |
| StatsUtils.PercentileBetween | projects/argo-energy-solutions/backend/python_scripts/lib/stats_utils.py:61 | when the rank is k + frac, the percentile is the linear interpolation of the k-th and (k+1)-th sorted values at frac |
| StatsUtils.QuartilesOfOneToTen | projects/argo-energy-solutions/backend/python_scripts/lib/stats_utils.py:58-61 | for 1..10, p25 = 3.25, p50 = 5.5 and p75 = 7.75 |
| StatsUtils.Variance | projects/argo-energy-solutions/backend/python_scripts/lib/stats_utils.py:43 | the population variance (the square of numpy's std) is never negative |
| StatsUtils.MeanBetween | projects/argo-energy-solutions/backend/python_scripts/lib/stats_utils.py:39-41 | the mean of a list whose elements lie in [lo, hi] lies in [lo, hi] |
| StatsUtils.CalculateStats | projects/argo-energy-solutions/backend/python_scripts/lib/stats_utils.py:13-44 | all zeros for the empty list; otherwise count = length, sum = Σ, mean = sum/count, min and max are elements bounding every element, min ≤ median ≤ max, min ≤ mean ≤ max, median = p50, variance ≥ 0 |
| StatsUtils.ConstantVariance | projects/argo-energy-solutions/backend/python_scripts/lib/stats_utils.py:36-44 | a constant list has that constant as its mean and variance 0 |
| StatsUtils.CalculateIqr | projects/argo-energy-solutions/backend/python_scripts/lib/stats_utils.py:64-84 | q1 = p25, q3 = p75, iqr = q3 − q1 ≥ 0, all zeros for the empty list |
| StatsUtils.IqrOfOneToTen | projects/argo-energy-solutions/backend/python_scripts/lib/stats_utils.py:74-84 | for 1..10 the result is q1 3.25, q3 7.75, iqr 4.5 |
| StatsUtils.ZScore | projects/argo-energy-solutions/backend/python_scripts/lib/stats_utils.py:87-101 | 0 when std = 0; otherwise the z for which mean + z·std = value |
| StatsUtils.NonZeroPercentile | projects/argo-energy-solutions/backend/python_scripts/lib/stats_utils.py:104-116 | 0 when no value is positive; otherwise a positive result between the least and the greatest positive value, equal to the least at p = 0 and to the greatest at p = 100 |
| StatsUtils.PositivePercentile | projects/argo-energy-solutions/backend/python_scripts/lib/stats_utils.py:115-116 | the percentile of the positive values is positive and at least one of the inputs |
| StatsUtils.DistinctKeys | projects/argo-energy-solutions/backend/python_scripts/lib/stats_utils.py:130-136 | the keys in first-seen order: pairwise distinct, one for every item, each the key of some item |
| StatsUtils.GroupBy | projects/argo-energy-solutions/backend/python_scripts/lib/stats_utils.py:119-136 | each key's bucket is exactly its items in input order, and the key order is the first-seen order |
| StatsUtils.GroupByPlacesEveryItem | projects/argo-energy-solutions/backend/python_scripts/lib/stats_utils.py:130-136 | every item's key is a bucket key and the item is in that bucket |
| StatsUtils.GroupSizesSum | projects/argo-energy-solutions/backend/python_scripts/lib/stats_utils.py:130-136 | the bucket sizes add up to the number of items |
| StatsUtils.TrailingWindow | projects/argo-energy-solutions/backend/python_scripts/lib/stats_utils.py:153 | for w − 1 ≤ i < n the window is values[i−w+1..i], of length w |
| StatsUtils.MapWindows | projects/argo-energy-solutions/backend/python_scripts/lib/stats_utils.py:150-158 | the index loop visits every valid index once, in order, with its trailing window |
| StatsUtils.RollingStats | projects/argo-energy-solutions/backend/python_scripts/lib/stats_utils.py:139-158 | one entry per index w−1..n−1, each holding that index and the stats of its trailing window |
| StatsUtils.RollingVariance | projects/argo-energy-solutions/backend/python_scripts/lib/stats_utils.py:161-184 | the result is the rolling-variance sequence of the values |
| StatsUtils.RollingVarianceEntries | projects/argo-energy-solutions/backend/python_scripts/lib/stats_utils.py:174-184 | entry j has index w−1+j and the mean and variance of its trailing window |
| StatsUtils.RollingVarianceWindows | projects/argo-energy-solutions/backend/python_scripts/lib/stats_utils.py:174-175 | with 1 ≤ w ≤ n there are n−w+1 entries and entry j covers values[j..j+w], w values |
| StatsUtils.TukeyFences | projects/argo-energy-solutions/backend/python_scripts/lib/stats_utils.py:201-202 | with iqr ≥ 0 and multiplier ≥ 0 the fences enclose [q1, q3] |
| StatsUtils.Classify | projects/argo-energy-solutions/backend/python_scripts/lib/stats_utils.py:204-213 | one entry per value with its index, the two bounds, and isOutlier iff the value is outside them |
| StatsUtils.DetectOutliers | projects/argo-energy-solutions/backend/python_scripts/lib/stats_utils.py:187-213 | one entry per value, flagged iff outside q1 − m·iqr .. q3 + m·iqr |
| StatsUtils.InterquartileValuesAreNotOutliers | projects/argo-energy-solutions/backend/python_scripts/lib/stats_utils.py:198-213 | a value between q1 and q3 is never an outlier for m ≥ 0 |
| StatsUtils.CalculateCompleteness | projects/argo-energy-solutions/backend/python_scripts/lib/stats_utils.py:216-229 | 0 when nothing is expected (otherwise see CompletenessScales) |
| StatsUtils.CompletenessScales | projects/argo-energy-solutions/backend/python_scripts/lib/stats_utils.py:229 | otherwise completeness · expected = actual · 100 |
| StatsUtils.CompletenessIsPercentage | projects/argo-energy-solutions/backend/python_scripts/lib/stats_utils.py:227-229 | 0 ≤ actual ≤ expected gives a value in [0, 100], and 100 when actual = expected |
| StatsUtils.RoundHalfEven | projects/argo-energy-solutions/backend/python_scripts/lib/stats_utils.py:263-265 | Python's round: within 0.5 of x, and even on a tie |
| StatsUtils.Pairs | projects/argo-energy-solutions/backend/python_scripts/lib/stats_utils.py:246-248 | the consecutive pairs (s[k], s[k+1]), one fewer than the elements |
| StatsUtils.FindGaps | projects/argo-energy-solutions/backend/python_scripts/lib/stats_utils.py:232-268 | the loop returns exactly the gaps of the timestamps |
| StatsUtils.GapOfPair | projects/argo-energy-solutions/backend/python_scripts/lib/stats_utils.py:256-266 | a pair is a gap iff its difference exceeds 1.1·expected, and its record holds round(diff/expected) and that minus 1 |
| StatsUtils.GapIffLongPair | projects/argo-energy-solutions/backend/python_scripts/lib/stats_utils.py:246-266 | a consecutive pair yields a gap iff its difference exceeds 1.1·expected |
| StatsUtils.ThreeHourGapAtQuarterHour | projects/argo-energy-solutions/backend/python_scripts/lib/stats_utils.py:259-265 | 10800 s at a 900 s interval is one gap of 12 expected and 11 missing intervals |
| DateUtils.HourOfWeek | projects/argo-energy-solutions/backend/python_scripts/lib/date_utils.py:125-138 | a value in 0..167 whose quotient by 24 is the weekday and remainder the hour |
| DateUtils.HourOfWeekMondayStart | projects/argo-energy-solutions/backend/python_scripts/lib/date_utils.py:127-138 | Monday 00:00 and 00:29:59 are hour 0 |
| DateUtils.HourOfWeekSundayEnd | projects/argo-energy-solutions/backend/python_scripts/lib/date_utils.py:127-138 | Sunday 23:00 and 23:59:59 are hour 167 |
| DateUtils.HourOfWeekFollowsOffset | projects/argo-energy-solutions/backend/python_scripts/lib/date_utils.py:136-138 | the weekday and hour are those of the local time: 05:00 UTC at offset −5 h on a Monday is hour 0 |
| DateUtils.DayName | projects/argo-energy-solutions/backend/python_scripts/lib/date_utils.py:151-153 | the lower-case name of the weekday |
| DateUtils.GetDayAndHour | projects/argo-energy-solutions/backend/python_scripts/lib/date_utils.py:141-155 | the weekday's name and the hour (0..23) |
| DateUtils.DayAndHourMatchesHourOfWeek | projects/argo-energy-solutions/backend/python_scripts/lib/date_utils.py:141-155 | two times have the same day and hour iff they have the same hour of week |
| DateUtils.ParseTimestamp | projects/argo-energy-solutions/backend/python_scripts/lib/date_utils.py:105-119 | a datetime is returned unchanged; a number is that many seconds after the epoch, in UTC |
| DateUtils.GetLastCompleteWeek | projects/argo-energy-solutions/backend/python_scripts/lib/date_utils.py:13-48 | the start is a Monday 00:00:00 in the given zone, 7 to 13 days before the reference day; the end is start + 6 d 23:59:59, a Sunday 23:59:59, before the reference |
| DateUtils.GetBaselinePeriod | projects/argo-energy-solutions/backend/python_scripts/lib/date_utils.py:51-76 | the end is 23:59:59 of the day before the report start, the start 00:00:00 of the day 7·weeks days before it, covering 7·weeks whole days and ending before the report starts |
| DateUtils.BaselineOfFourWeeks | projects/argo-energy-solutions/backend/python_scripts/lib/date_utils.py:51-76 | the default baseline spans 28 days |
| DateUtils.BaselineAdjoinsReportWeek | projects/argo-energy-solutions/backend/python_scripts/lib/date_utils.py:66-71 | the baseline of the last complete week ends one second before that week starts, and starts on a Monday |
| DateUtils.GetIntervalHours | projects/argo-energy-solutions/backend/python_scripts/lib/date_utils.py:158-168 | hours · 3600 = resolution |
| DateUtils.IntervalHoursOfQuarterHour | projects/argo-energy-solutions/backend/python_scripts/lib/date_utils.py:168 | 900 s is 0.25 h, 1800 s 0.5 h, 3600 s 1 h |
| DateUtils.GenerateExpectedTimestamps | projects/argo-energy-solutions/backend/python_scripts/lib/date_utils.py:171-194 | element k is start + k·interval, every element is at most end, the next step would pass end, and the count is ⌊(end − start)/interval⌋ + 1 (0 when end < start, for any interval) |
| ReportConfig.Merged | projects/argo-energy-solutions/backend/python_scripts/config/report_config.py:104-112 | the merged keys are the default keys and the user keys |
| ReportConfig.MergeOver | projects/argo-energy-solutions/backend/python_scripts/config/report_config.py:104-114 | the copy-and-overwrite loop produces the merge of the user config over the defaults |
| ReportConfig.MergeConfig | projects/argo-energy-solutions/backend/python_scripts/config/report_config.py:91-114 | None gives the defaults; a user config gives its merge over DEFAULT_CONFIG |
| ReportConfig.MergedWithNothing | projects/argo-energy-solutions/backend/python_scripts/config/report_config.py:101-104 | merging an empty config gives the defaults |
| ReportConfig.MergedNestedDict | projects/argo-energy-solutions/backend/python_scripts/config/report_config.py:108-110 | two dicts merge key by key: user sub-keys win, default sub-keys the user omits keep their values, the keys are the union |
| ReportConfig.MergedReplaces | projects/argo-energy-solutions/backend/python_scripts/config/report_config.py:111-112 | any other user value replaces the default, and a new key is added as given |
| ReportConfig.MergedKeepsDefaults | projects/argo-energy-solutions/backend/python_scripts/config/report_config.py:104 | a default key the user omits keeps its default value |
| ReportConfig.OverrideOneThreshold | projects/argo-energy-solutions/backend/python_scripts/config/report_config.py:104-112 | overriding anomaly.iqrMultiplier keeps anomaly.minExcessKwh = 5 and the spike section |
| ReportConfig.DecodeBusinessHours | projects/argo-energy-solutions/backend/python_scripts/config/report_config.py:133 | a decoded schedule has an entry for every weekday name |
| ReportConfig.DecodeConfig | projects/argo-energy-solutions/backend/python_scripts/config/report_config.py:131-139 | a decoded configuration has an entry for every weekday, so the business-hours lookup cannot fail |
| ReportConfig.DefaultConfigDecodes | projects/argo-energy-solutions/backend/python_scripts/config/report_config.py:13-88 | DEFAULT_CONFIG decodes to the typed default configuration |
| ReportConfig.GetDayOfWeek | projects/argo-energy-solutions/backend/python_scripts/config/report_config.py:142-153 | the weekday's lower-case name; saturday or sunday iff weekday ≥ 5 |
| ReportConfig.IsBusinessHours | projects/argo-energy-solutions/backend/python_scripts/config/report_config.py:117-139 | true iff the day has opening hours and start ≤ hour < end; false when the day's entry is None |
| ReportConfig.DefaultBusinessHoursSchedule | projects/argo-energy-solutions/backend/python_scripts/config/report_config.py:18-26 | under the defaults a time is in business hours iff it is Monday to Friday with hour 7 to 17 (07:00 up to 18:00) |
| Readings.PowerOf | projects/argo-energy-solutions/backend/python_scripts/analyze/anomaly_detection.py:40 | P when it is present and non-zero, else power_kw, else 0 |
| Readings.HourKey | projects/argo-energy-solutions/backend/python_scripts/analyze/anomaly_detection.py:30-32 | the hour-of-week key is in 0..167 |
| Readings.FindBaseline | projects/argo-energy-solutions/backend/python_scripts/analyze/anomaly_detection.py:218-221 | None iff no baseline has the channel's id; otherwise the first one with that id |
| Readings.UsableBaseline | projects/argo-energy-solutions/backend/python_scripts/analyze/anomaly_detection.py:218-225 | the baseline readings exist iff a matching baseline with at least one reading exists |
| EventRuns.Runs | projects/argo-energy-solutions/backend/python_scripts/analyze/anomaly_detection.py:75-114 | the runs are empty iff the input is, and no run is empty |
| EventRuns.RunsFlatten | projects/argo-energy-solutions/backend/python_scripts/analyze/anomaly_detection.py:75-122 | grouping drops and reorders nothing: the runs concatenate to the input |
| EventRuns.RunsJoinWithin | projects/argo-energy-solutions/backend/python_scripts/analyze/anomaly_detection.py:92-97 | each element of a run joins its predecessor |
| EventRuns.RunsSplitBetween | projects/argo-energy-solutions/backend/python_scripts/analyze/anomaly_detection.py:98-114 | the first element of a run does not join the previous run's last element |
| StableSort.SortBy | projects/argo-energy-solutions/backend/python_scripts/analyze/quick_wins.py:220 | the sort keeps the length and the elements (a permutation) |
| StableSort.SortBySorted | projects/argo-energy-solutions/backend/python_scripts/analyze/quick_wins.py:212-220 | the result is sorted by the key |
| StableSort.SortBySortedInput | projects/argo-energy-solutions/backend/python_scripts/analyze/quick_wins.py:220 | sorting a sorted list changes nothing |
| StableSort.SortByStable | projects/argo-energy-solutions/backend/python_scripts/analyze/sensor_health.py:161 | elements with equal keys keep their input order (Python's sort is stable) |
| AnomalyDetection.ProfileEntryOf | projects/argo-energy-solutions/backend/python_scripts/analyze/anomaly_detection.py:46-53 | an hour's entry holds the stats and the IQR of its powers, and for k ≥ 0 its upper threshold is at least its median |
| AnomalyDetection.ProfileEntryThreshold | projects/argo-energy-solutions/backend/python_scripts/analyze/anomaly_detection.py:49-53 | an hour's upper threshold is q3 + k·(q3 − q1) of its powers |
| AnomalyDetection.Profile | projects/argo-energy-solutions/backend/python_scripts/analyze/anomaly_detection.py:36-55 | there is an entry exactly for each hour of week of the baseline |
| AnomalyDetection.ProfileKeys | projects/argo-energy-solutions/backend/python_scripts/analyze/anomaly_detection.py:38-53 | an hour has an entry iff some baseline reading falls in it; keys are in 0..167 |
| AnomalyDetection.BuildBaselineProfile | projects/argo-energy-solutions/backend/python_scripts/analyze/anomaly_detection.py:18-55 | the loop over the groups builds the profile of the baseline |
| AnomalyDetection.ToAnomalous | projects/argo-energy-solutions/backend/python_scripts/analyze/anomaly_detection.py:164-180 | a flagged reading keeps ts and power, records the median and threshold of its hour, excessKw = power − median, excessKwh = excessKw·hours, and its business-hours flag |
| AnomalyDetection.Flagged | projects/argo-energy-solutions/backend/python_scripts/analyze/anomaly_detection.py:156-180 | at most one flagged reading per reading |
| AnomalyDetection.FlaggedMembership | projects/argo-energy-solutions/backend/python_scripts/analyze/anomaly_detection.py:156-180 | a reading is flagged iff its hour has an entry and its power exceeds the threshold; every flagged power exceeds its threshold |
| AnomalyDetection.FlaggedAboveThreshold | projects/argo-energy-solutions/backend/python_scripts/analyze/anomaly_detection.py:159-180 | with every day in the business-hours table, a reading whose power exceeds its hour's threshold is among the flagged readings |
| AnomalyDetection.QuietHourQuartiles | projects/argo-energy-solutions/backend/python_scripts/lib/stats_utils.py:64-84 | the quartiles of powers 10, 10, 10, 10, 20 are q1 = q3 = 10, so the IQR is 0 |
| AnomalyDetection.ProfileAt | projects/argo-energy-solutions/backend/python_scripts/analyze/anomaly_detection.py:38-53 | an hour with baseline readings has an entry, built from the powers of that hour |
| AnomalyDetection.QuietHourPowers | projects/argo-energy-solutions/backend/python_scripts/analyze/anomaly_detection.py:46-53 | the entry of powers 10, 10, 10, 10, 20 with k = 3 has IQR 0 and threshold 10 |
| AnomalyDetection.QuietHourEntryOf | projects/argo-energy-solutions/backend/python_scripts/analyze/anomaly_detection.py:46-53 | an hour whose powers are 10, 10, 10, 10, 20 gets an entry with IQR 0 and, for k = 3, an upper threshold of 10 |
| AnomalyDetection.QuietHourEntry | projects/argo-energy-solutions/backend/python_scripts/analyze/anomaly_detection.py:38-53 | a baseline of five readings in hour 50 with powers 10, 10, 10, 10, 20 gives hour 50 an upper threshold of 10 |
| AnomalyDetection.QuietHourBusyReading | projects/argo-energy-solutions/backend/python_scripts/analyze/anomaly_detection.py:159-167 | a 15 kW reading in that hour exceeds the threshold of 10 |
| AnomalyDetection.QuietHourAnomaly | projects/argo-energy-solutions/backend/python_scripts/analyze/anomaly_detection.py:38-53 | the 15 kW reading is flagged in any report that contains it, against the profile of that baseline |
| AnomalyDetection.FlaggedExcessPositive | projects/argo-energy-solutions/backend/python_scripts/analyze/anomaly_detection.py:167-168 | a flagged reading's excess over the median is positive |
| AnomalyDetection.EventOf | projects/argo-energy-solutions/backend/python_scripts/analyze/anomaly_detection.py:100-122 | an event starts and ends at its first and last readings, counts them, has the largest power as peak, the sum of excess as total, avgExcessKw = total/(n·0.25), and the first reading's context |
| AnomalyDetection.Emitted | projects/argo-energy-solutions/backend/python_scripts/analyze/anomaly_detection.py:100-122 | at most one event per run |
| AnomalyDetection.AnomalyRunGaps | projects/argo-energy-solutions/backend/python_scripts/analyze/anomaly_detection.py:88-114 | readings of one event are under 7200 s apart; a new event starts 7200 s or more after the previous one ends |
| AnomalyDetection.GroupConsecutiveAnomalies | projects/argo-energy-solutions/backend/python_scripts/analyze/anomaly_detection.py:58-124 | the loop returns the events of the runs that have at least min_consecutive readings |
| AnomalyDetection.AnomalyEventFacts | projects/argo-energy-solutions/backend/python_scripts/analyze/anomaly_detection.py:100-122 | every returned event has at least min_consecutive readings and is the event of one run |
| AnomalyDetection.ChannelAnomaliesFacts | projects/argo-energy-solutions/backend/python_scripts/analyze/anomaly_detection.py:183-193 | anomalyCount is the number of events, each with total excess ≥ minExcessKwh and enough readings |
| AnomalyDetection.DetectAnomalies | projects/argo-energy-solutions/backend/python_scripts/analyze/anomaly_detection.py:127-193 | the method computes the channel's result |
| AnomalyDetection.KeptAnomalyResults | projects/argo-energy-solutions/backend/python_scripts/analyze/anomaly_detection.py:214-230 | at most one result per channel |
| AnomalyDetection.KeptAnomalyResultsFacts | projects/argo-energy-solutions/backend/python_scripts/analyze/anomaly_detection.py:216-230 | every kept result has anomalyCount > 0 and belongs to a channel with a non-empty matching baseline |
| AnomalyDetection.AnalyzeAnomalies | projects/argo-energy-solutions/backend/python_scripts/analyze/anomaly_detection.py:196-251 | the results are the kept ones sorted by summed event excess, with their count, the summed anomalyCount, the summed excess and the timeline |
| AnomalyDetection.AnalysisOrder | projects/argo-energy-solutions/backend/python_scripts/analyze/anomaly_detection.py:233-236 | the sorted results are a permutation, non-increasing in summed excess, ties in input order |
| AnomalyDetection.GenerateAnomalyTimeline | projects/argo-energy-solutions/backend/python_scripts/analyze/anomaly_detection.py:254-280 | the timeline is the events of all results, sorted by start |
| AnomalyDetection.TimelineFacts | projects/argo-energy-solutions/backend/python_scripts/analyze/anomaly_detection.py:264-278 | the timeline is a permutation of the entries and non-decreasing in start time |
| AnomalyDetection.TimelineLength | projects/argo-energy-solutions/backend/python_scripts/analyze/anomaly_detection.py:266-275 | one entry per event of each result |
| AnomalyDetection.TimelineCountsEvents | projects/argo-energy-solutions/backend/python_scripts/analyze/anomaly_detection.py:239-275 | the timeline length equals the total of anomalyCount |
| SpikeDetection.SpikeStatsOf | projects/argo-energy-solutions/backend/python_scripts/analytics/spike_detection.py:39-44 | count = number of powers, p95 and p50 are those percentiles, p50 ≤ p95 |
| SpikeDetection.SpikeBaseline | projects/argo-energy-solutions/backend/python_scripts/analytics/spike_detection.py:30-46 | there is an entry exactly for each hour of week of the baseline |
| SpikeDetection.SpikeBaselineEntries | projects/argo-energy-solutions/backend/python_scripts/analytics/spike_detection.py:32-44 | each entry counts the hour's readings, at least one, with p50 ≤ p95 |
| SpikeDetection.BuildSpikeBaseline | projects/argo-energy-solutions/backend/python_scripts/analytics/spike_detection.py:14-46 | the loop over the groups builds the spike baseline |
| SpikeDetection.SpikeThresholdIsMax | projects/argo-energy-solutions/backend/python_scripts/analytics/spike_detection.py:152 | the threshold is max(p95·multiplier, floor) |
| SpikeDetection.SpikeTest | projects/argo-energy-solutions/backend/python_scripts/analytics/spike_detection.py:152-154 | a power is a spike iff it exceeds p95·multiplier and the floor, i.e. iff it exceeds the threshold |
| SpikeDetection.ToSpike | projects/argo-energy-solutions/backend/python_scripts/analytics/spike_detection.py:155-162 | a spike keeps ts and power, with excessKw = power − p95 and excessKwh = excessKw·hours |
| SpikeDetection.Spikes | projects/argo-energy-solutions/backend/python_scripts/analytics/spike_detection.py:143-162 | at most one spike per reading |
| SpikeDetection.SpikesAboveFloor | projects/argo-energy-solutions/backend/python_scripts/analytics/spike_detection.py:152-162 | every spike exceeds its threshold and the channel's floor, and the threshold is at least p95·multiplier |
| SpikeDetection.SpikesMembership | projects/argo-energy-solutions/backend/python_scripts/analytics/spike_detection.py:146-162 | every reading at a baseline hour whose power exceeds both the threshold and the floor has its spike among the spikes |
| SpikeDetection.FlagSpikes | projects/argo-energy-solutions/backend/python_scripts/analytics/spike_detection.py:141-162 | the loop returns the spikes of the readings, in order |
| SpikeDetection.SpikeEventOf | projects/argo-energy-solutions/backend/python_scripts/analytics/spike_detection.py:66-99 | an event starts and ends at its first and last spikes, intervals = number of spikes, peak = largest power |
| SpikeDetection.EventsOf | projects/argo-energy-solutions/backend/python_scripts/analytics/spike_detection.py:101-106 | one event per run |
| SpikeDetection.SpikeIntervalsTotal | projects/argo-energy-solutions/backend/python_scripts/analytics/spike_detection.py:66-108 | the events' intervals add up to the number of spikes |
| SpikeDetection.SpikeEventsSeparated | projects/argo-energy-solutions/backend/python_scripts/analytics/spike_detection.py:81-99 | the next event starts more than 2·interval after the previous event's end |
| SpikeDetection.SpikeRunJoined | projects/argo-energy-solutions/backend/python_scripts/analytics/spike_detection.py:81-85 | spikes of one event are at most 2·interval apart |
| SpikeDetection.SpikeGroupingAtQuarterHour | projects/argo-energy-solutions/backend/python_scripts/analytics/spike_detection.py:76-99 | at 900 s, spikes 600 s apart merge and one 2400 s later starts a new event |
| SpikeDetection.GroupConsecutiveSpikes | projects/argo-energy-solutions/backend/python_scripts/analytics/spike_detection.py:49-108 | the loop returns one event per run of spikes |
| SpikeDetection.ChannelSpikesFacts | projects/argo-energy-solutions/backend/python_scripts/analytics/spike_detection.py:165-175 | spikeCount is the number of events, each with intervals ≥ minDuration |
| SpikeDetection.DetectSpikes | projects/argo-energy-solutions/backend/python_scripts/analytics/spike_detection.py:111-175 | the method computes the channel's result |
| SpikeDetection.KeptSpikeResults | projects/argo-energy-solutions/backend/python_scripts/analytics/spike_detection.py:198-214 | at most one result per channel |
| SpikeDetection.KeptSpikeResultsFacts | projects/argo-energy-solutions/backend/python_scripts/analytics/spike_detection.py:200-214 | every kept result has spikeCount > 0 and belongs to a channel with a non-empty matching baseline, detected with the site floor iff it is the site channel |
| SpikeDetection.GetTopSpikes | projects/argo-energy-solutions/backend/python_scripts/analytics/spike_detection.py:237-259 | the method computes the top spikes |
| SpikeDetection.TopSpikesFacts | projects/argo-energy-solutions/backend/python_scripts/analytics/spike_detection.py:248-259 | min(count, all) spikes, non-increasing in peak, each tagged event among all, none left out with a higher peak |
| SpikeDetection.AnalyzeSpikes | projects/argo-energy-solutions/backend/python_scripts/analytics/spike_detection.py:178-234 | the results are the kept ones sorted by largest peak, with their count, summed spikeCount, summed excess and the top 10 spikes |
| SpikeDetection.SpikeAnalysisOrder | projects/argo-energy-solutions/backend/python_scripts/analytics/spike_detection.py:216-220 | the sorted results are a permutation, non-increasing in largest peak |
| SensorHealth.GapIssuesFacts | projects/argo-energy-solutions/backend/python_scripts/analyze/sensor_health.py:51-63 | one missing_data issue per gap with missingIntervals ≥ gapMultiplier, high iff > 10 else medium, about the channel |
| SensorHealth.ReportGaps | projects/argo-energy-solutions/backend/python_scripts/analyze/sensor_health.py:45-63 | the loop emits exactly the gap issues |
| SensorHealth.CompletenessIssues | projects/argo-energy-solutions/backend/python_scripts/analyze/sensor_health.py:65-79 | one issue iff completeness < 100 − missingThresholdPct, high iff < 50 else medium, about the channel, with the completeness and the missing count |
| SensorHealth.CheckCompleteness | projects/argo-energy-solutions/backend/python_scripts/analyze/sensor_health.py:65-79 | the method emits the completeness issues |
| SensorHealth.CompleteWithoutExpected | projects/argo-energy-solutions/backend/python_scripts/analyze/sensor_health.py:66-70 | without expectedIntervals a non-empty channel is 100 % complete and never flagged |
| SensorHealth.EmptyChannelFlagged | projects/argo-energy-solutions/backend/python_scripts/analyze/sensor_health.py:66-73 | a channel without readings is 0 % complete and flagged high |
| SensorHealth.Truncate | projects/argo-energy-solutions/backend/python_scripts/analyze/sensor_health.py:89 | Python's int(): rounds toward zero |
| SensorHealth.FirstFlat | projects/argo-energy-solutions/backend/python_scripts/analyze/sensor_health.py:94-113 | the first window with variance < threshold and mean > 0.1, or none when there is none |
| SensorHealth.ScanForFlatline | projects/argo-energy-solutions/backend/python_scripts/analyze/sensor_health.py:94-113 | the scan with break finds the first flat window |
| SensorHealth.FlatWindowInRange | projects/argo-energy-solutions/backend/python_scripts/analyze/sensor_health.py:97-106 | a flat window's position j and its end position w−1+j are valid (possibly negative, Python-style) indices of the readings |
| SensorHealth.FlatlineIssue | projects/argo-energy-solutions/backend/python_scripts/analyze/sensor_health.py:97-110 | a medium flatline issue about the channel, from the window's first to its last reading |
| SensorHealth.FlatlineIssues | projects/argo-energy-solutions/backend/python_scripts/analyze/sensor_health.py:82-113 | at most one flatline issue, about the channel |
| SensorHealth.FlatlineIssuesFacts | projects/argo-energy-solutions/backend/python_scripts/analyze/sensor_health.py:88-113 | an issue iff the channel is non-empty, has at least a window of powers and some window is flat; it is the first flat window |
| SensorHealth.CheckFlatline | projects/argo-energy-solutions/backend/python_scripts/analyze/sensor_health.py:81-113 | the method emits the flatline issues |
| SensorHealth.StaleIssues | projects/argo-energy-solutions/backend/python_scripts/analyze/sensor_health.py:115-132 | one issue iff the last reading is older than staleHours, high iff > 24 h else low |
| SensorHealth.CheckStale | projects/argo-energy-solutions/backend/python_scripts/analyze/sensor_health.py:115-132 | the method emits the stale issues |
| SensorHealth.AnalyzeSensorHealth | projects/argo-energy-solutions/backend/python_scripts/analyze/sensor_health.py:19-134 | gap, completeness, flatline and stale issues, in that order |
| SensorHealth.ChannelIssuesAbout | projects/argo-energy-solutions/backend/python_scripts/analyze/sensor_health.py:52-131 | every issue carries the channel's id and name |
| SensorHealth.ChannelIssuesTypes | projects/argo-energy-solutions/backend/python_scripts/analyze/sensor_health.py:88-132 | a channel has at most one issue of each type other than missing_data |
| SensorHealth.AnalyzeSensorHealthForSite | projects/argo-energy-solutions/backend/python_scripts/analyze/sensor_health.py:137-170 | all issues stably sorted high, medium, low, with totals per severity and the summary |
| SensorHealth.SeverityCountsSum | projects/argo-energy-solutions/backend/python_scripts/analyze/sensor_health.py:164-167 | the three severity counts add up to the number of issues |
| SensorHealth.SiteIssuesFacts | projects/argo-energy-solutions/backend/python_scripts/analyze/sensor_health.py:159-167 | the sorted issues are a permutation, in severity order, each severity in input order, with counts summing to the total |
| SensorHealth.ChannelNamesFacts | projects/argo-energy-solutions/backend/python_scripts/analyze/sensor_health.py:193 | the channel-name set holds exactly the issues' names, has no more names than there are issues, and at least one when there is an issue |
| SensorHealth.GenerateHealthSummary | projects/argo-energy-solutions/backend/python_scripts/analyze/sensor_health.py:173-208 | the loop over the issues builds the summary |
| SensorHealth.HealthSummaryOrder | projects/argo-energy-solutions/backend/python_scripts/analyze/sensor_health.py:197-206 | one entry per distinct issue type, in first-seen order |
| SensorHealth.EntriesFollowKeys | projects/argo-energy-solutions/backend/python_scripts/analyze/sensor_health.py:197-206 | entries have distinct types and cover every type that occurs |
| SensorHealth.HealthSummaryCounts | projects/argo-energy-solutions/backend/python_scripts/analyze/sensor_health.py:185-204 | each entry counts the issues of its type and the distinct channel names among them, 1 ≤ affected ≤ count |
| SensorHealth.HealthSummaryTotal | projects/argo-energy-solutions/backend/python_scripts/analyze/sensor_health.py:185-203 | the entry counts add up to the number of issues |
| AfterHoursWaste.FilterPositiveTail | projects/argo-energy-solutions/backend/python_scripts/lib/stats_utils.py:115 | the positive-values filter drops two non-positive powers and keeps three positive ones in order |
| AfterHoursWaste.FifthPercentileOfThree | projects/argo-energy-solutions/backend/python_scripts/lib/stats_utils.py:47-61 | the 5th percentile of three ascending values lies a tenth of the way from the first to the second |
| AfterHoursWaste.LowBaselinePercentile | projects/argo-energy-solutions/backend/python_scripts/analyze/after_hours_waste.py:40-47 | the after-hours baseline of powers 0, 0, 5, 6, 7 kW at the 5th percentile is 5.1 kW |
| AfterHoursWaste.LowBaselineExcess | projects/argo-energy-solutions/backend/python_scripts/analyze/after_hours_waste.py:64-68 | a 20 kW reading over that 5.1 kW baseline, held for 15 minutes, is 3.725 kWh of excess |
| AfterHoursWaste.AfterHoursIsNotBusiness | projects/argo-energy-solutions/backend/python_scripts/analyze/after_hours_waste.py:43 | a reading is after-hours iff it is not in business hours |
| AfterHoursWaste.BaselineKwFacts | projects/argo-energy-solutions/backend/python_scripts/analyze/after_hours_waste.py:40-47 | baseline_kw ≥ 0; 0 when no after-hours baseline power qualifies; otherwise above minPowerThreshold, and for a non-negative threshold the percentile of those powers |
| AfterHoursWaste.NoBaselinePowersGiveZero | projects/argo-energy-solutions/backend/python_scripts/analyze/after_hours_waste.py:40-47 | when no after-hours power is above the threshold, baseline_kw is 0 |
| AfterHoursWaste.Excess | projects/argo-energy-solutions/backend/python_scripts/analyze/after_hours_waste.py:67 | max(0, power − baseline): non-negative, at least power − baseline, and one of the two |
| AfterHoursWaste.AccumulateAfterHours | projects/argo-energy-solutions/backend/python_scripts/analyze/after_hours_waste.py:59-78 | the loop sums energy and excess energy and collects the intervals whose excess exceeds the threshold |
| AfterHoursWaste.CalculateAfterHoursWaste | projects/argo-energy-solutions/backend/python_scripts/analyze/after_hours_waste.py:16-106 | the method computes the channel's waste result |
| AfterHoursWaste.ReportAfterHoursElements | projects/argo-energy-solutions/backend/python_scripts/analyze/after_hours_waste.py:50-57 | every counted reading is an after-hours reading of the channel |
| AfterHoursWaste.ExcessNonNegative | projects/argo-energy-solutions/backend/python_scripts/analyze/after_hours_waste.py:63-69 | the total excess is non-negative |
| AfterHoursWaste.ExcessAtMostTotal | projects/argo-energy-solutions/backend/python_scripts/analyze/after_hours_waste.py:63-69 | for non-negative powers, 0 ≤ excess ≤ total after-hours energy |
| AfterHoursWaste.ExcessIntervalsFacts | projects/argo-energy-solutions/backend/python_scripts/analyze/after_hours_waste.py:71-104 | the details are the first min(10, n) excess intervals in input order, each above minPowerThreshold, from an after-hours reading |
| AfterHoursWaste.NothingAboveBaseline | projects/argo-energy-solutions/backend/python_scripts/analyze/after_hours_waste.py:67-105 | with no after-hours power above baseline_kw: excess 0, no excess intervals for a non-negative threshold, and not significant when minExcessKwh > 0 |
| AfterHoursWaste.WastePowerStats | projects/argo-energy-solutions/backend/python_scripts/analyze/after_hours_waste.py:80-97 | intervals counts the after-hours readings; avg, max and min are their stats, all 0 when there are none |
| AfterHoursWaste.WasteCountsAfterHours | projects/argo-energy-solutions/backend/python_scripts/analyze/after_hours_waste.py:50-105 | intervals = number of after-hours readings; significant iff excess ≥ minExcessKwh |
| AfterHoursWaste.PercentOfTotalScales | projects/argo-energy-solutions/backend/python_scripts/analyze/after_hours_waste.py:102 | percentOfTotal · total = excess · 100 for a positive total, else 0 |
| AfterHoursWaste.KeptWasteResults | projects/argo-energy-solutions/backend/python_scripts/analyze/after_hours_waste.py:129-142 | at most one result per channel |
| AfterHoursWaste.KeptWasteResultsFacts | projects/argo-energy-solutions/backend/python_scripts/analyze/after_hours_waste.py:129-142 | every kept result is significant and belongs to a channel with a non-empty matching baseline |
| AfterHoursWaste.ProfileAverageIsMean | projects/argo-energy-solutions/backend/python_scripts/analyze/after_hours_waste.py:188-192 | total/max(1, n) is the mean of the avgPowerKw values (0 for none) |
| AfterHoursWaste.GenerateAfterHoursProfile | projects/argo-energy-solutions/backend/python_scripts/analyze/after_hours_waste.py:174-195 | 24 entries, hours 0..23, each the mean avgPowerKw of the results |
| AfterHoursWaste.AnalyzeAfterHoursWaste | projects/argo-energy-solutions/backend/python_scripts/analyze/after_hours_waste.py:109-171 | allMeters are the kept results sorted by excess, topMeters the first 10, the totals are sums, annual = cost·52, plus the contributors and profile |
| AfterHoursWaste.WasteAnalysisOrder | projects/argo-energy-solutions/backend/python_scripts/analyze/after_hours_waste.py:145-152 | the sorted meters are a permutation, non-increasing in excess, and the top 10 are no smaller than the rest |
| AfterHoursWaste.AllMetersSignificant | projects/argo-energy-solutions/backend/python_scripts/analyze/after_hours_waste.py:141-153 | every listed meter is significant, with excess ≥ minExcessKwh, and comes from a channel with a baseline |
| QuickWins.AfterHoursWinOf | projects/argo-energy-solutions/backend/python_scripts/analyze/quick_wins.py:31-54 | high iff excess > 100 else medium, weekly kWh and cost from the meter, annual = weekly·52, high confidence iff intervals > 100 |
| QuickWins.ConsideredMeters | projects/argo-energy-solutions/backend/python_scripts/analyze/quick_wins.py:26-27 | at most the first 3 top meters are considered |
| QuickWins.AfterHoursWins | projects/argo-energy-solutions/backend/python_scripts/analyze/quick_wins.py:25-54 | one win per considered meter with excess ≥ minWeeklyImpact, at most 3 |
| QuickWins.AfterHoursWinsFrom | projects/argo-energy-solutions/backend/python_scripts/analyze/quick_wins.py:27-31 | every after-hours win comes from a considered meter that meets minWeeklyImpact |
| QuickWins.AddAfterHoursWins | projects/argo-energy-solutions/backend/python_scripts/analyze/quick_wins.py:25-54 | the loop emits the after-hours wins |
| QuickWins.SensorWinOf | projects/argo-energy-solutions/backend/python_scripts/analyze/quick_wins.py:62-85 | always high priority, weekly kWh N/A and cost 0 |
| QuickWins.AffectedWhenHigh | projects/argo-energy-solutions/backend/python_scripts/analyze/quick_wins.py:58-61 | the affected-channel set is non-empty iff some issue is high |
| QuickWins.SensorWinsFacts | projects/argo-energy-solutions/backend/python_scripts/analyze/quick_wins.py:56-85 | one win iff highSeverity > 0 and some issue is high; it counts the distinct affected channel names |
| QuickWins.AddSensorWin | projects/argo-energy-solutions/backend/python_scripts/analyze/quick_wins.py:56-85 | the method emits the sensor win |
| QuickWins.AnomalyWinOf | projects/argo-energy-solutions/backend/python_scripts/analyze/quick_wins.py:96-119 | high iff the event's excess > 50 else medium, weekly cost = kWh·rate, annual = weekly·52 |
| QuickWins.AnomalyWins | projects/argo-energy-solutions/backend/python_scripts/analyze/quick_wins.py:87-119 | one win iff there are anomaly events, a first result and a first event; it uses results[0].events[0] |
| QuickWins.AddAnomalyWin | projects/argo-energy-solutions/backend/python_scripts/analyze/quick_wins.py:87-119 | the method emits the anomaly win |
| QuickWins.DemandNoteOf | projects/argo-energy-solutions/backend/python_scripts/analyze/quick_wins.py:125-130 | the demand-charge note, peak·charge, appears iff a non-zero charge is set |
| QuickWins.SpikeWinOf | projects/argo-energy-solutions/backend/python_scripts/analyze/quick_wins.py:132-155 | medium priority, kWh and cost of the top spike, annual = weekly·52, with the demand note |
| QuickWins.SpikeWins | projects/argo-energy-solutions/backend/python_scripts/analyze/quick_wins.py:121-155 | one win iff there is a top spike; it uses topSpikes[0] |
| QuickWins.AddSpikeWin | projects/argo-energy-solutions/backend/python_scripts/analyze/quick_wins.py:121-155 | the method emits the spike win |
| QuickWins.FlatlineWinOf | projects/argo-energy-solutions/backend/python_scripts/analyze/quick_wins.py:160-182 | low priority, weekly kWh N/A and cost 0 |
| QuickWins.FlatlineWinsFacts | projects/argo-energy-solutions/backend/python_scripts/analyze/quick_wins.py:157-182 | one win iff some issue is a flatline; it counts the flatline issues |
| QuickWins.AddFlatlineWin | projects/argo-energy-solutions/backend/python_scripts/analyze/quick_wins.py:157-182 | the method emits the flatline win |
| QuickWins.SummaryWinOf | projects/argo-energy-solutions/backend/python_scripts/analyze/quick_wins.py:188-210 | high priority with the site totals and the annual estimate |
| QuickWins.SummaryWins | projects/argo-energy-solutions/backend/python_scripts/analyze/quick_wins.py:184-210 | one win iff the after-hours totalExcessKwh > 0 |
| QuickWins.AddSummaryWin | projects/argo-energy-solutions/backend/python_scripts/analyze/quick_wins.py:184-210 | the method emits the summary win |
| QuickWins.Rank | projects/argo-energy-solutions/backend/python_scripts/analyze/quick_wins.py:213-216 | high ranks 0, low 2, medium in between |
| QuickWins.CandidateCount | projects/argo-energy-solutions/backend/python_scripts/analyze/quick_wins.py:25-210 | at most 8 candidates |
| QuickWins.SortedWinsOrder | projects/argo-energy-solutions/backend/python_scripts/analyze/quick_wins.py:212-223 | a prefix of a sorted list is in priority order, non-increasing in kWh within a priority |
| QuickWins.QuickWinsOrder | projects/argo-energy-solutions/backend/python_scripts/analyze/quick_wins.py:212-223 | the output is in priority order and kWh order within a priority, a prefix of the sorted candidates of length min(maxCount, n), drawn from the candidates, ties in generation order |
| QuickWins.GenerateQuickWins | projects/argo-energy-solutions/backend/python_scripts/analyze/quick_wins.py:12-223 | the method returns the sorted, truncated candidates |
| WeeklyReport.GenerateHeadline | projects/argo-energy-solutions/backend/python_scripts/deliver/generate_weekly_report.py:198-218 | never empty; the fallback alone iff no condition holds; each headline present iff its condition holds, in fixed order |
| WeeklyReport.IdentifyTopRisks | projects/argo-energy-solutions/backend/python_scripts/deliver/generate_weekly_report.py:221-237 | never empty; the fallback alone iff no risk; each risk present iff its threshold is passed, in fixed order |
| WeeklyReport.IdentifyTopOpportunities | projects/argo-energy-solutions/backend/python_scripts/deliver/generate_weekly_report.py:240-254 | never empty; the fallback alone iff no opportunity; each present iff its threshold is passed, in fixed order |
| WeeklyReport.CalculateAvgCompleteness | projects/argo-energy-solutions/backend/python_scripts/deliver/generate_weekly_report.py:257-271 | the loop computes the mean of readings/672·100, 0 for no channels |
| WeeklyReport.ChannelCompletenessBounds | projects/argo-energy-solutions/backend/python_scripts/deliver/generate_weekly_report.py:263-268 | a channel's completeness is ≥ 0, ≤ 100 for at most 672 readings, 100 for exactly 672 |
| WeeklyReport.AvgCompletenessBounds | projects/argo-energy-solutions/backend/python_scripts/deliver/generate_weekly_report.py:257-271 | the average is ≥ 0, ≤ 100 when no channel exceeds 672 readings, 100 when all have exactly 672 |
| WeeklyReport.PotentialSavings | projects/argo-energy-solutions/backend/python_scripts/deliver/generate_weekly_report.py:380-384 | weekly kWh and cost add the after-hours and anomaly parts; annual = weekly cost·52 |
| WeeklyReport.SavingsCoverAfterHours | projects/argo-energy-solutions/backend/python_scripts/deliver/generate_weekly_report.py:380-384 | for a non-negative anomaly excess and rate, the potential savings are at least the after-hours waste alone, weekly and annually |
| HistoricalIngestion.ValidateReading | projects/argo-energy-solutions/backend/python_scripts/ingest/historical_ingestion.py:300-333 | missing or zero ts rejects first, then a ts after now, then a negative P; everything else (P absent included) is accepted |
| HistoricalIngestion.PartitionReadings | projects/argo-energy-solutions/backend/python_scripts/ingest/historical_ingestion.py:352-372 | with validation, the valid readings in order and the count of the others; without, all readings and 0; the two add up to the input |
| HistoricalIngestion.PartitionKeepsValid | projects/argo-energy-solutions/backend/python_scripts/ingest/historical_ingestion.py:360-366 | a reading is kept iff it is in the batch and valid |
| HistoricalIngestion.IngestionWindows | projects/argo-energy-solutions/backend/python_scripts/ingest/historical_ingestion.py:610-676 | the loop produces the windows of the period |
| HistoricalIngestion.WindowsCover | projects/argo-energy-solutions/backend/python_scripts/ingest/historical_ingestion.py:610-676 | the windows start at start and end at end, each begins where the previous ended, each is non-empty and at most 24 h, all but the last exactly 24 h |
| HistoricalIngestion.WindowCount | projects/argo-energy-solutions/backend/python_scripts/ingest/historical_ingestion.py:612-617 | the number of windows is the period length over 24 h, rounded up |
| CliTemplating.ReplaceAllRemoves | projects/project-data-pipeline/src/pipeline/cli.py:222 | replacing with a non-empty text sharing no character with the pattern leaves no occurrence |
| CliTemplating.ReplaceAllAbsent | projects/project-data-pipeline/src/pipeline/cli.py:222 | a string without the pattern is unchanged |
| CliTemplating.ApplyDate | projects/project-data-pipeline/src/pipeline/cli.py:220-227 | strings are replaced, lists map elementwise with the same length, dicts keep their keys with transformed values, anything else is unchanged |
| CliTemplating.ApplyDateTemplates | projects/project-data-pipeline/src/pipeline/cli.py:220-228 | for an ISO date no `{date}` remains anywhere |
| CliTemplating.ApplyDateFixes | projects/project-data-pipeline/src/pipeline/cli.py:220-227 | a value without `{date}` is unchanged |
| CliTemplating.ApplyDateIdempotent | projects/project-data-pipeline/src/pipeline/cli.py:220-228 | templating twice is templating once |
| SchemaValidate.CompareSchema | projects/project-data-pipeline/src/pipeline/validate.py:31-43 | missing = sample columns not in current, extra = current columns not in sample, order message iff the sequences differ |
| SchemaValidate.SchemaIssueIffDiffer | projects/project-data-pipeline/src/pipeline/validate.py:35-42 | a schema issue iff the column sequences differ; identical columns give three empty lists |
| SchemaValidate.ReorderedColumns | projects/project-data-pipeline/src/pipeline/validate.py:35-42 | the same columns in another order give only the order message |
| SchemaValidate.ExitCode | projects/project-data-pipeline/src/pipeline/validate.py:91-119 | 2 iff the key column is missing; 1 iff strict and a schema issue or a value mismatch; else 0 |
| SchemaValidate.StrictExitOnColumns | projects/project-data-pipeline/src/pipeline/validate.py:117-119 | without strict mode the run never fails; in strict mode differing columns always fail it |

## Left out

- Database access, HTTP calls, file and CSV I/O, logging, the command-line
  parsing and the report rendering are not modelled. Analyses receive
  their readings, baselines and configuration as values.
- Clocks: the current time (`now`, Unix seconds) and today's date are
  parameters.
- Floating point: floats are exact reals. NaN, infinities and rounding
  error are not modelled.
- `round(x, 2)` and `round(x, 1)` in summaries and details are taken as the
  identity. The rounding in `find_gaps` is modelled as Python's
  round-half-even.
- `AfterHoursWaste.AnalyzeAfterHoursWaste`: the sort of the meters and the
  cut to the top 10 use the unrounded excess kWh. Python sorts on
  `round(excess, 2)`, so meters whose excess differs only past the second
  decimal can come out in another order. For example, 50.001 and 50.004
  keep their input order in Python but are swapped in the model.
- `QuickWins.AfterHoursWinOf`: the `minWeeklyImpact` test and the `> 100`
  priority test use the unrounded excess kWh, where Python tests
  `round(excess, 2)`. An excess of 9.996 kWh earns a win in Python (10.0)
  but not in the model. An excess of 100.004 gets medium priority in
  Python but high in the model.
- The weekly report's headline, risk and opportunity thresholds compare the
  unrounded totals, where Python compares the `round(·, 2)` totals of the
  analyses.
- Standard deviation: `numpy.std` and `sqrt` are not modelled. The
  population variance, which `std` is the root of, is modelled instead, so
  `ZScore` takes the standard deviation as a parameter.
- Timestamps are modelled as an instant plus a fixed UTC offset. Parsing
  ISO-8601 strings, `pytz` zone lookup and daylight-saving transitions are
  not modelled. `get_last_complete_week` and `get_baseline_period` work
  with the offset they are given.
- A missing `P` falls back to `power_kw`, and then to 0, following
  Python's `or`. An explicit `None` or NaN power is not distinguished from a
  missing one, so the `[p for p in powers if p is not None]` filters have
  nothing to drop.
- Dictionary key order is not modelled: configurations and baselines are
  maps. Key orders the output depends on are modelled as sequences in
  first-seen order: the health-summary types and the groups of `group_by`.
- The demand-spike baseline always uses the 95th percentile, which the code
  hard-codes. The configuration's `spike.baselinePercentile` is read nowhere.
- `AfterHoursWaste.CalculateAfterHoursWaste` requires that the
  business-hours table names all seven days, because Python raises
  `KeyError` otherwise. It also requires a percentile in [0, 100], which is
  numpy's own precondition. Every analysis that tests business hours
  requires the former.
- `AnomalyDetection.ToAnomalous`: the `zScore` field of a flagged reading
  is not modelled, because it divides by the standard deviation, which is
  not modelled. The other fields of the flagged reading are.
- `SensorHealth.AnalyzeSensorHealth`: the model converts every timestamp
  with `parse_timestamp` before looking for gaps. Python passes the raw
  `ts` values to `find_gaps`, which converts only strings and subtracts the
  rest directly. So a channel with two or more readings and an integer
  epoch timestamp among them makes Python raise, for example readings at
  epoch 0 and 7200 with a 900 s interval. The model instead reports a gap
  of 7 missing intervals there. Zoned timestamps behave the same in both.
- `DateUtils.GenerateExpectedTimestamps` requires a positive interval
  unless `end` is before `start`, where the loop body never runs and the
  result is `[]` for any interval. With a zero or negative interval and
  `start` at or before `end`, Python's loop never terminates. That case is
  excluded, because the model's loop must terminate.
- `StatsUtils.FindGaps` and the sensor-health methods require a non-zero
  interval, because Python divides by it.
- Sorts are modelled on sequence values, not as in-place list sorts.
- Human-readable texts are not modelled as strings and are left out: the
  description, recommendation, owner and effort strings of quick wins and
  issues. Titles, headlines, risks and opportunities are datatype values
  carrying the numbers they are formatted from.
- `QuickWins.Rank`: the fallback rank of 3 for an unknown priority is not
  modelled, because a priority is always one of the three values.
- The number of rows that `upsert_readings` reports as inserted comes from
  the database and is not modelled. The fetch, retry and logging code of
  the ingestion loop is not modelled either, nor is the skip of a channel
  without an id.
- `HistoricalIngestion.ValidateReading`: a string `ts` makes Python raise a
  `TypeError` at the comparison with `now`. It is not modelled, because the
  timestamp type offers no string case.
- `compare_values` is represented only by its outcome: the key column
  missing, or the mismatch count per column. Loading the CSV files is not
  modelled.
- `SchemaValidate.CompareSchema` states membership for the missing and extra
  columns, not their order. The lists are built by `Seqs.Filter`, so they
  keep the order of the file.
- The remaining functions of the weekly report assemble dicts for
  rendering. Likewise, the ingestion's `main` and the CLI command handlers
  only wire calls together, and are not modelled.
