/** The calendar kernel: instants as integer seconds since the Unix epoch,
    each carrying the fixed UTC offset (in seconds) of the zone it is shown
    in. Weekday, hour and midnight are computed from the local wall-clock
    seconds; comparisons and differences use the absolute instant, as
    Python does for timezone-aware datetimes. */
module DateUtils {

  const SecondsPerHour: int := 3600
  const SecondsPerDay: int := 86400
  const SecondsPerWeek: int := 604800

  datatype DateTime = DateTime(utc: int, offset: int)

  /** Wall-clock seconds since 1970-01-01 00:00 local time. */
  function Local(d: DateTime): int
  {
    d.utc + d.offset
  }

  /** Local calendar day number; day 0 is 1970-01-01 (floor division). */
  function DayNumber(d: DateTime): int
  {
    Local(d) / SecondsPerDay
  }

  function SecondOfDay(d: DateTime): (r: int)
    ensures 0 <= r < SecondsPerDay
    ensures Local(d) == DayNumber(d) * SecondsPerDay + r
  {
    Local(d) % SecondsPerDay
  }

  /** `datetime.weekday()`: 0 is Monday, 6 is Sunday; 1970-01-01 was a Thursday. */
  function Weekday(d: DateTime): (r: int)
    ensures 0 <= r < 7
  {
    (DayNumber(d) + 3) % 7
  }

  /** `datetime.hour` */
  function Hour(d: DateTime): (r: int)
    ensures 0 <= r < 24
  {
    SecondOfDay(d) / SecondsPerHour
  }

  /** The instant `seconds` later, in the same zone (`d + timedelta(seconds=...)`). */
  function AddSeconds(d: DateTime, seconds: int): (r: DateTime)
    ensures r.offset == d.offset && r.utc - d.utc == seconds
  {
    DateTime(d.utc + seconds, d.offset)
  }

  /** The instant at local wall-clock seconds `local` in `d`'s zone (what
      `replace(hour=..., minute=..., second=...)` yields for a fixed offset). */
  function AtLocal(d: DateTime, local: int): (r: DateTime)
    ensures r.offset == d.offset && Local(r) == local
  {
    DateTime(local - d.offset, d.offset)
  }

  /** Hour of week: Monday 00:00 is 0 and Sunday 23:00 is 167. */
  function HourOfWeek(d: DateTime): (r: int)
    ensures 0 <= r < 168
    ensures r / 24 == Weekday(d) && r % 24 == Hour(d)
  {
    Weekday(d) * 24 + Hour(d)
  }

  const DayNames: seq<string> :=
    ["monday", "tuesday", "wednesday", "thursday", "friday", "saturday", "sunday"]

  /** The lower-case weekday name (`get_day_of_week`). */
  function DayName(d: DateTime): (r: string)
    ensures r in DayNames && r == DayNames[Weekday(d)]
  {
    DayNames[Weekday(d)]
  }

  datatype DayAndHour = DayAndHour(dayOfWeek: string, hour: int)

  function GetDayAndHour(d: DateTime): (r: DayAndHour)
    ensures r.dayOfWeek == DayNames[Weekday(d)] && r.hour == Hour(d)
    ensures 0 <= r.hour < 24
  {
    DayAndHour(DayName(d), Hour(d))
  }

  /** Day name and hour carry exactly the information of the hour of week. */
  lemma DayAndHourMatchesHourOfWeek(a: DateTime, b: DateTime)
    ensures GetDayAndHour(a) == GetDayAndHour(b) <==> HourOfWeek(a) == HourOfWeek(b)
  {
    var ha, hb := HourOfWeek(a), HourOfWeek(b);
    if ha == hb {
      assert Weekday(a) == ha / 24 == Weekday(b);
      assert Hour(a) == ha % 24 == Hour(b);
    }
    if GetDayAndHour(a) == GetDayAndHour(b) {
      assert DayNames[Weekday(a)] == DayNames[Weekday(b)];
      assert Weekday(a) == Weekday(b);
    }
  }

  /** Monday 1970-01-05 00:00 UTC starts the week; 00:29:59 is still hour 0. */
  lemma HourOfWeekMondayStart()
    ensures HourOfWeek(DateTime(345600, 0)) == 0
    ensures HourOfWeek(DateTime(347399, 0)) == 0
  {
    assert 345600 / 86400 == 4 && 345600 % 86400 == 0;
    assert 347399 / 86400 == 4 && 347399 % 86400 == 1799;
  }

  /** Sunday 1970-01-11 23:00 and 23:59:59 UTC are the last hour of the week. */
  lemma HourOfWeekSundayEnd()
    ensures HourOfWeek(DateTime(946800, 0)) == 167
    ensures HourOfWeek(DateTime(950399, 0)) == 167
  {
    assert 946800 / 86400 == 10 && 946800 % 86400 == 82800;
    assert 950399 / 86400 == 10 && 950399 % 86400 == 86399;
  }

  /** The hour of week follows the zone: 05:00 UTC on that Monday is local midnight at UTC-5. */
  lemma HourOfWeekFollowsOffset()
    ensures HourOfWeek(DateTime(363600, -18000)) == 0
  {
    assert Local(DateTime(363600, -18000)) == 345600;
    assert 345600 / 86400 == 4 && 345600 % 86400 == 0;
  }

  // ---------------------------------------------------------------------
  // Timestamp parsing

  /** A timestamp as the analytics receive it: Unix seconds, or an already
      constructed datetime. ISO-8601 text is not part of this model. */
  datatype TsValue = Epoch(seconds: int) | Zoned(at: DateTime)

  function ParseTimestamp(ts: TsValue): (r: DateTime)
    ensures ts.Zoned? ==> r == ts.at
    ensures ts.Epoch? ==> r.utc == ts.seconds && r.offset == 0
  {
    match ts
    case Zoned(at) => at
    case Epoch(s) => DateTime(s, 0)
  }

  // ---------------------------------------------------------------------
  // Report windows

  datatype Period = Period(start: DateTime, end: DateTime)

  /** The last complete Monday-to-Sunday week before the week containing
      `reference`, seen in the zone with offset `zoneOffset`. */
  function GetLastCompleteWeek(reference: DateTime, zoneOffset: int): (r: Period)
    ensures Weekday(r.start) == 0 && SecondOfDay(r.start) == 0
    ensures r.start.offset == zoneOffset && r.end.offset == zoneOffset
    ensures 7 <= DayNumber(DateTime(reference.utc, zoneOffset)) - DayNumber(r.start) <= 13
    ensures r.end.utc == r.start.utc + 6 * SecondsPerDay + 23 * 3600 + 59 * 60 + 59
    ensures Weekday(r.end) == 6 && SecondOfDay(r.end) == SecondsPerDay - 1
    ensures r.end.utc < reference.utc
  {
    var now := DateTime(reference.utc, zoneOffset);
    var daysBack := Weekday(now) + 7;
    var lastMonday := AtLocal(now, (DayNumber(now) - daysBack) * SecondsPerDay);
    var lastSunday := AddSeconds(lastMonday, 6 * SecondsPerDay + 23 * 3600 + 59 * 60 + 59);
    assert DayNumber(lastMonday) == DayNumber(now) - daysBack;
    assert DayNumber(lastSunday) == DayNumber(lastMonday) + 6;
    Period(lastMonday, lastSunday)
  }

  /** The `weeksCount` weeks of whole days ending the day before `reportStart`. */
  function GetBaselinePeriod(reportStart: DateTime, weeksCount: int): (r: Period)
    ensures r.start.offset == reportStart.offset && r.end.offset == reportStart.offset
    ensures DayNumber(r.end) == DayNumber(reportStart) - 1
    ensures SecondOfDay(r.end) == SecondsPerDay - 1
    ensures DayNumber(r.start) == DayNumber(reportStart) - 7 * weeksCount
    ensures SecondOfDay(r.start) == 0
    ensures r.end.utc - r.start.utc + 1 == 7 * weeksCount * SecondsPerDay
    ensures r.end.utc < reportStart.utc
  {
    var endDay := DayNumber(reportStart) - 1;
    var baselineEnd := AtLocal(reportStart, endDay * SecondsPerDay + SecondsPerDay - 1);
    var startDay := endDay - (weeksCount * 7 - 1);
    var baselineStart := AtLocal(reportStart, startDay * SecondsPerDay);
    assert DayNumber(baselineEnd) == endDay;
    assert DayNumber(baselineStart) == startDay;
    Period(baselineStart, baselineEnd)
  }

  /** The default four-week baseline spans 28 whole days. */
  lemma BaselineOfFourWeeks(reportStart: DateTime)
    ensures var p := GetBaselinePeriod(reportStart, 4);
      p.end.utc - p.start.utc + 1 == 28 * SecondsPerDay
  {
  }

  /** A report week found by `GetLastCompleteWeek`, followed by its
      baseline, leaves no gap and no overlap between the two. */
  lemma BaselineAdjoinsReportWeek(reference: DateTime, zoneOffset: int, weeksCount: int)
    ensures var w := GetLastCompleteWeek(reference, zoneOffset);
      var b := GetBaselinePeriod(w.start, weeksCount);
      b.end.utc + 1 == w.start.utc && Weekday(b.start) == 0
  {
    var w := GetLastCompleteWeek(reference, zoneOffset);
    var b := GetBaselinePeriod(w.start, weeksCount);
    assert DayNumber(b.end) == DayNumber(w.start) - 1;
    assert DayNumber(b.start) == DayNumber(w.start) - 7 * weeksCount;
    assert (DayNumber(b.start) + 3) % 7 == (DayNumber(w.start) + 3 - 7 * weeksCount) % 7;
  }

  // ---------------------------------------------------------------------
  // Intervals

  /** The length of a reading interval in hours. */
  function GetIntervalHours(resolution: int): (r: real)
    ensures r * 3600.0 == resolution as real
  {
    resolution as real / 3600.0
  }

  lemma IntervalHoursOfQuarterHour()
    ensures GetIntervalHours(900) == 0.25
    ensures GetIntervalHours(1800) == 0.5
    ensures GetIntervalHours(3600) == 1.0
  {
  }

  /** The expected reading instants `start, start + interval, ...` up to and
      including `end`, all in `start`'s zone. */
  method GenerateExpectedTimestamps(start: DateTime, end: DateTime, intervalSeconds: int)
    returns (timestamps: seq<DateTime>)
    requires intervalSeconds > 0 || end.utc < start.utc
    ensures forall k :: 0 <= k < |timestamps| ==> timestamps[k] == AddSeconds(start, k * intervalSeconds)
    ensures forall k :: 0 <= k < |timestamps| ==> timestamps[k].utc <= end.utc
    ensures start.utc + |timestamps| * intervalSeconds > end.utc
    ensures |timestamps| == if end.utc < start.utc then 0 else (end.utc - start.utc) / intervalSeconds + 1
  {
    timestamps := [];
    var current := start;
    while current.utc <= end.utc
      invariant current == AddSeconds(start, |timestamps| * intervalSeconds)
      invariant forall k :: 0 <= k < |timestamps| ==> timestamps[k] == AddSeconds(start, k * intervalSeconds)
      invariant forall k :: 0 <= k < |timestamps| ==> timestamps[k].utc <= end.utc
      invariant |timestamps| == 0 || start.utc + (|timestamps| - 1) * intervalSeconds <= end.utc
      invariant intervalSeconds > 0 || |timestamps| == 0
      decreases end.utc - current.utc + intervalSeconds
    {
      timestamps := timestamps + [current];
      current := AddSeconds(current, intervalSeconds);
    }
    if intervalSeconds > 0 {
      CountOfSteps(start.utc, end.utc, intervalSeconds, |timestamps|);
    }
  }

  /** `n` counts the steps `start + k * step` (k >= 0) that are at most `end`. */
  lemma CountOfSteps(start: int, end: int, step: int, n: nat)
    requires step > 0
    requires n == 0 || start + (n - 1) * step <= end
    requires start + n * step > end
    ensures n == if end < start then 0 else (end - start) / step + 1
  {
    if end >= start {
      var q := (end - start) / step;
      assert q * step <= end - start < (q + 1) * step;
      MulCancel(q, n, step);
      MulCancel(n - 1, q + 1, step);
    }
  }

  lemma MulCancel(a: int, b: int, step: int)
    requires step > 0
    ensures a * step < b * step ==> a < b
  {
    if a >= b {
      assert a * step - b * step == (a - b) * step >= 0;
    }
  }
}
