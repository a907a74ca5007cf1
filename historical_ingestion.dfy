/** The pure parts of the historical ingestion: the validation of one
    reading before it is stored, the partition of a batch into valid
    readings and a rejected count, and the split of the ingestion period
    into windows of at most 24 hours. The current time is a parameter, in
    Unix seconds. */
module HistoricalIngestion {
  import opened Seqs
  import opened DateUtils

  /** The `ts` of a raw reading: absent, a Unix time in seconds (an `int`
      or a `float`), or a timezone-aware datetime. */
  datatype IngestTs = MissingTs | UnixTs(seconds: real) | DateTimeTs(at: DateTime)

  /** A raw reading as far as validation looks at it: its timestamp and its
      `P` value, `None` when absent. */
  datatype IngestReading = IngestReading(ts: IngestTs, p: Option<real>)

  datatype RejectReason = MissingTimestamp | FutureTimestamp(at: real) | NegativePower(kw: real)

  /** `(True, None)` or `(False, message)`; a message by the values it is
      formatted from. */
  datatype Verdict = Accepted | Rejected(reason: RejectReason)

  /** Python's `not ts`: an absent timestamp and the number 0 are falsy. */
  predicate HasTimestamp(ts: IngestTs)
  {
    match ts
    case MissingTs => false
    case UnixTs(s) => s != 0.0
    case DateTimeTs(_) => true
  }

  /** The instant of a timestamp, in Unix seconds. */
  function InstantOf(ts: IngestTs): real
  {
    match ts
    case MissingTs => 0.0
    case UnixTs(s) => s
    case DateTimeTs(d) => d.utc as real
  }

  /** `validate_reading`: a missing timestamp, then a future timestamp, then
      a negative power rejects; anything else is accepted. */
  function ValidateReading(r: IngestReading, now: int): (v: Verdict)
    ensures v == Rejected(MissingTimestamp) <==> !HasTimestamp(r.ts)
    ensures v.Rejected? && v.reason.FutureTimestamp? <==> HasTimestamp(r.ts) && InstantOf(r.ts) > now as real
    ensures v.Rejected? && v.reason.FutureTimestamp? ==> v.reason.at == InstantOf(r.ts)
    ensures v.Rejected? && v.reason.NegativePower? <==>
      HasTimestamp(r.ts) && InstantOf(r.ts) <= now as real && r.p.Some? && r.p.value < 0.0
    ensures v.Rejected? && v.reason.NegativePower? ==> v.reason.kw == r.p.value
    ensures v == Accepted <==>
      HasTimestamp(r.ts) && InstantOf(r.ts) <= now as real && (r.p.None? || r.p.value >= 0.0)
  {
    if !HasTimestamp(r.ts) then Rejected(MissingTimestamp)
    else if InstantOf(r.ts) > now as real then Rejected(FutureTimestamp(InstantOf(r.ts)))
    else if r.p.Some? && r.p.value < 0.0 then Rejected(NegativePower(r.p.value))
    else Accepted
  }

  function IsValid(now: int): IngestReading -> bool
  {
    (r: IngestReading) => ValidateReading(r, now) == Accepted
  }

  function IsInvalid(now: int): IngestReading -> bool
  {
    (r: IngestReading) => ValidateReading(r, now) != Accepted
  }

  /** The validation step of `upsert_readings`: each reading is validated in
      turn; valid ones are kept in order and the others counted. Without
      validation every reading is kept. */
  method PartitionReadings(readings: seq<IngestReading>, now: int, validate: bool)
    returns (valid: seq<IngestReading>, rejected: nat)
    ensures validate ==> valid == Filter(readings, IsValid(now)) && rejected == |Filter(readings, IsInvalid(now))|
    ensures !validate ==> valid == readings && rejected == 0
    ensures |valid| + rejected == |readings|
  {
    if |readings| == 0 {
      return [], 0;
    }
    if !validate {
      return readings, 0;
    }
    valid := [];
    rejected := 0;
    for i := 0 to |readings|
      invariant valid == Filter(readings[..i], IsValid(now))
      invariant rejected == |Filter(readings[..i], IsInvalid(now))|
    {
      PrefixSnoc(readings, i);
      FilterSnoc(readings[..i], readings[i], IsValid(now));
      FilterSnoc(readings[..i], readings[i], IsInvalid(now));
      var verdict := ValidateReading(readings[i], now);
      if verdict.Accepted? {
        valid := valid + [readings[i]];
      } else {
        rejected := rejected + 1;
      }
    }
    assert readings[..|readings|] == readings;
    FilterPartition(readings, IsValid(now), IsInvalid(now));
  }

  /** Every kept reading is valid and every valid reading is kept, in the
      original order. */
  lemma PartitionKeepsValid(readings: seq<IngestReading>, now: int, r: IngestReading)
    ensures r in Filter(readings, IsValid(now)) <==> r in readings && ValidateReading(r, now) == Accepted
  {
    FilterMembership(readings, IsValid(now), r);
  }

  // ---------------------------------------------------------------------
  // The 24-hour window loop

  const WindowSeconds: int := 24 * 3600

  datatype Window = Window(start: int, end: int)

  /** The windows from `start` to `end`: each starts where the previous one
      ended and lasts 24 hours, except that the last one is cut at `end`. */
  function WindowsFrom(start: int, end: int): seq<Window>
    decreases end - start
  {
    if start >= end then []
    else
      var next := if start + WindowSeconds < end then start + WindowSeconds else end;
      [Window(start, next)] + WindowsFrom(next, end)
  }

  /** The `while current_start < end_dt` loop of `run_historical_ingestion`. */
  method IngestionWindows(start: int, end: int) returns (windows: seq<Window>)
    ensures windows == WindowsFrom(start, end)
  {
    windows := [];
    var currentStart := start;
    while currentStart < end
      invariant windows + WindowsFrom(currentStart, end) == WindowsFrom(start, end)
      decreases end - currentStart
    {
      var currentEnd := if currentStart + WindowSeconds < end then currentStart + WindowSeconds else end;
      assert WindowsFrom(currentStart, end) == [Window(currentStart, currentEnd)] + WindowsFrom(currentEnd, end);
      windows := windows + [Window(currentStart, currentEnd)];
      currentStart := currentEnd;
    }
  }

  /** The windows cover `[start, end]` contiguously: the first starts at
      `start`, the last ends at `end`, each starts where its predecessor
      ended, each is non-empty and at most 24 hours long, and all but the
      last are exactly 24 hours long. */
  lemma {:induction false} WindowsCover(start: int, end: int)
    ensures var w := WindowsFrom(start, end);
      && (|w| == 0 <==> start >= end)
      && (|w| > 0 ==> w[0].start == start && w[|w| - 1].end == end)
      && (forall i :: 0 <= i < |w| ==> w[i].start < w[i].end <= w[i].start + WindowSeconds)
      && (forall i :: 0 <= i < |w| - 1 ==> w[i + 1].start == w[i].end)
      && (forall i :: 0 <= i < |w| - 1 ==> w[i].end == w[i].start + WindowSeconds)
    decreases end - start
  {
    if start < end {
      var next := if start + WindowSeconds < end then start + WindowSeconds else end;
      WindowsCover(next, end);
      var w := WindowsFrom(start, end);
      var rest := WindowsFrom(next, end);
      assert w == [Window(start, next)] + rest;
      forall i | 0 <= i < |w| - 1 ensures w[i + 1].start == w[i].end {
        if i > 0 {
          assert w[i] == rest[i - 1] && w[i + 1] == rest[i];
        }
      }
    }
  }

  /** The number of windows is the period length divided by 24 hours,
      rounded up. */
  lemma {:induction false} WindowCount(start: int, end: int)
    requires start <= end
    ensures |WindowsFrom(start, end)| == (end - start + WindowSeconds - 1) / WindowSeconds
    decreases end - start
  {
    if start < end {
      if start + WindowSeconds < end {
        WindowCount(start + WindowSeconds, end);
        CeilStep(end - start - WindowSeconds);
      } else {
        CeilOne(end - start);
      }
    }
  }

  lemma CeilStep(d: int)
    requires d > 0
    ensures (d + WindowSeconds + WindowSeconds - 1) / WindowSeconds == (d + WindowSeconds - 1) / WindowSeconds + 1
  {
  }

  lemma CeilOne(d: int)
    requires 0 < d <= WindowSeconds
    ensures (d + WindowSeconds - 1) / WindowSeconds == 1
  {
  }
}
