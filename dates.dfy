/**
 * Date and time helpers of `util/functions/date.py`: minute-precision trimming, epoch
 * milliseconds, time-of-day minute differences, step alignment of a time span, and the
 * `strftime("%Y-%m-%d %H:%M")` and `isoformat()` strings.
 */
module Dates {
  import opened Wrappers
  import opened Strings

  /** A naive local `datetime`. */
  datatype DateTime = DateTime(year: int, month: int, day: int, hour: int, minute: int, second: int, microsecond: int)

  function DaysInMonth(year: int, month: int): int
  {
    if month == 2 then (if (year % 4 == 0 && year % 100 != 0) || year % 400 == 0 then 29 else 28)
    else if month in {4, 6, 9, 11} then 30
    else 31
  }

  /** The field ranges Python's `datetime` enforces. */
  predicate Valid(d: DateTime)
  {
    && 1 <= d.year <= 9999 && 1 <= d.month <= 12 && 1 <= d.day <= DaysInMonth(d.year, d.month)
    && 0 <= d.hour < 24 && 0 <= d.minute < 60 && 0 <= d.second < 60 && 0 <= d.microsecond < 1000000
  }

  /** Days since 1970-01-01 of a proleptic Gregorian civil date. */
  function DaysFromCivil(year: int, month: int, day: int): int
  {
    var y := if month <= 2 then year - 1 else year;
    var era := y / 400;
    var yoe := y - era * 400;
    var mp := if month > 2 then month - 3 else month + 9;
    var doy := (153 * mp + 2) / 5 + day - 1;
    var doe := yoe * 365 + yoe / 4 - yoe / 100 + doy;
    era * 146097 + doe - 719468
  }

  const MICROS_PER_MINUTE: int := 60 * 1000000

  /**
   * Microseconds since the epoch of a naive local datetime, for a local zone
   * `utcOffsetMinutes` minutes ahead of UTC (daylight saving is not modelled).
   */
  function EpochMicros(d: DateTime, utcOffsetMinutes: int): int
  {
    ((DaysFromCivil(d.year, d.month, d.day) * 24 + d.hour) * 60 + d.minute - utcOffsetMinutes) * MICROS_PER_MINUTE
      + d.second * 1000000 + d.microsecond
  }

  /** Integer division truncating toward zero, as Python's `int()` of a quotient. */
  function TruncDiv(a: int, b: int): int
    requires b > 0
  {
    if a >= 0 then a / b else -((-a) / b)
  }

  /** Python's floor division `a // b` (undefined for `b == 0`). */
  function FloorDiv(a: int, b: int): (q: int)
    requires b != 0
    ensures b > 0 ==> q * b <= a < q * b + b
  {
    if b > 0 then a / b else (-a) / (-b)
  }

  /** `get_timestamp`: `int(date.timestamp() * 1000)`. */
  function GetTimestamp(d: DateTime, utcOffsetMinutes: int): (r: int)
    ensures var us := EpochMicros(d, utcOffsetMinutes);
      && (us >= 0 ==> r * 1000 <= us < r * 1000 + 1000)
      && (us < 0 ==> r * 1000 - 1000 < us <= r * 1000)
  {
    TruncDiv(EpochMicros(d, utcOffsetMinutes), 1000)
  }

  /** `remove_sec_precision`: the datetime rebuilt from year, month, day, hour and minute. */
  function RemoveSecPrecision(d: DateTime): (r: DateTime)
    ensures Valid(d) ==> Valid(r)
  {
    DateTime(d.year, d.month, d.day, d.hour, d.minute, 0, 0)
  }

  /** Trimming keeps year to minute, zeroes second and microsecond, and is idempotent. */
  lemma RemoveSecPrecisionKeepsMinute(d: DateTime)
    ensures var r := RemoveSecPrecision(d);
      && (r.year, r.month, r.day, r.hour, r.minute) == (d.year, d.month, d.day, d.hour, d.minute)
      && r.second == 0 && r.microsecond == 0
      && RemoveSecPrecision(r) == r
  {
  }

  /**
   * For a valid datetime, the trimmed instant is the start of the minute that holds
   * it: on a whole-minute boundary and less than a minute earlier.
   */
  lemma RemoveSecPrecisionFloorsToMinute(d: DateTime, utcOffsetMinutes: int)
    requires Valid(d)
    ensures var t := EpochMicros(RemoveSecPrecision(d), utcOffsetMinutes);
      && t % MICROS_PER_MINUTE == 0
      && t <= EpochMicros(d, utcOffsetMinutes) < t + MICROS_PER_MINUTE
  {
  }

  /** The millisecond timestamp of a minute-trimmed datetime is a whole number of minutes. */
  lemma TrimmedTimestampIsWholeMinutes(d: DateTime, utcOffsetMinutes: int)
    ensures GetTimestamp(RemoveSecPrecision(d), utcOffsetMinutes) % 60000 == 0
  {
    var t := EpochMicros(RemoveSecPrecision(d), utcOffsetMinutes);
    var k := (DaysFromCivil(d.year, d.month, d.day) * 24 + d.hour) * 60 + d.minute - utcOffsetMinutes;
    assert t == k * MICROS_PER_MINUTE;
    if t >= 0 {
      assert t / 1000 == k * 60000;
    } else {
      assert (-t) / 1000 == (-k) * 60000;
    }
  }

  /** Minutes since midnight, the only part of a datetime the minute difference reads. */
  function MinuteOfDay(d: DateTime): int
  {
    d.hour * 60 + d.minute
  }

  /** `subtract_datetime_mins`: the difference of the time-of-day minutes; the date and seconds are ignored. */
  function SubtractDatetimeMins(a: DateTime, b: DateTime): (r: int)
    ensures r == MinuteOfDay(a) - MinuteOfDay(b)
  {
    (a.minute + a.hour * 60) - (b.minute + b.hour * 60)
  }

  /** Equal times of day give 0 and swapping the arguments negates the result. */
  lemma SubtractDatetimeMinsZeroAndAntisymmetric(a: DateTime, b: DateTime)
    ensures SubtractDatetimeMins(a, a) == 0
    ensures SubtractDatetimeMins(a, b) == -SubtractDatetimeMins(b, a)
  {
  }

  /** Only hour and minute matter: the date, second and microsecond do not change the result. */
  lemma SubtractDatetimeMinsReadsOnlyHourMinute(a: DateTime, a': DateTime, b: DateTime, b': DateTime)
    requires a.hour == a'.hour && a.minute == a'.minute && b.hour == b'.hour && b.minute == b'.minute
    ensures SubtractDatetimeMins(a, b) == SubtractDatetimeMins(a', b')
  {
  }

  /** For valid datetimes the difference lies in [-1439, 1439]. */
  lemma SubtractDatetimeMinsRange(a: DateTime, b: DateTime)
    requires Valid(a) && Valid(b)
    ensures -1439 <= SubtractDatetimeMins(a, b) <= 1439
  {
  }

  datatype DateError = ZeroDivision

  /** Aligned `(start, end)` epoch milliseconds of a time span. */
  datatype AlignedSpan = AlignedSpan(startMs: int, endMs: int)

  /**
   * `process_time_span`: both bounds are trimmed to the minute, the start is floored to a
   * multiple of the step and the end is ceiled to one. A zero step raises `ZeroDivisionError`.
   */
  function ProcessTimeSpan(start: DateTime, end: DateTime, timeStepMs: int, utcOffsetMinutes: int): (r: Result<AlignedSpan, DateError>)
    ensures r.Err? <==> timeStepMs == 0
  {
    if timeStepMs == 0 then Err(ZeroDivision)
    else
      var startMs := GetTimestamp(RemoveSecPrecision(start), utcOffsetMinutes);
      var endMs := GetTimestamp(RemoveSecPrecision(end), utcOffsetMinutes);
      Ok(AlignedSpan(FloorDiv(startMs, timeStepMs) * timeStepMs, FloorDiv(endMs + timeStepMs - 1, timeStepMs) * timeStepMs))
  }

  /**
   * For a positive step the aligned start is the greatest multiple of the step not above
   * the trimmed start, and the aligned end the least multiple not below the trimmed end.
   */
  lemma {:induction false} ProcessTimeSpanAligns(start: DateTime, end: DateTime, timeStepMs: int, utcOffsetMinutes: int)
    requires timeStepMs > 0
    ensures var r := ProcessTimeSpan(start, end, timeStepMs, utcOffsetMinutes);
      var s := GetTimestamp(RemoveSecPrecision(start), utcOffsetMinutes);
      var e := GetTimestamp(RemoveSecPrecision(end), utcOffsetMinutes);
      && r.Ok?
      && r.value.startMs % timeStepMs == 0 && r.value.startMs <= s < r.value.startMs + timeStepMs
      && r.value.endMs % timeStepMs == 0 && r.value.endMs - timeStepMs < e <= r.value.endMs
  {
    var s := GetTimestamp(RemoveSecPrecision(start), utcOffsetMinutes);
    var e := GetTimestamp(RemoveSecPrecision(end), utcOffsetMinutes);
    var qs := FloorDiv(s, timeStepMs);
    var qe := FloorDiv(e + timeStepMs - 1, timeStepMs);
    MultipleMod(qs, timeStepMs);
    MultipleMod(qe, timeStepMs);
  }

  lemma MultipleMod(q: int, b: int)
    requires b > 0
    ensures (q * b) % b == 0
  {
    var d, r := (q * b) / b, (q * b) % b;
    assert (q - d) * b == r by {
      assert q * b == d * b + r;
    }
    if q - d >= 1 {
      MulMonotone(q - d, b);
    } else if q - d <= -1 {
      MulMonotone(d - q, b);
    }
  }

  lemma MulMonotone(k: int, b: int)
    requires k >= 1 && b > 0
    ensures k * b >= b
  {
    assert k * b == (k - 1) * b + b;
  }

  /** `YYYY-MM-DD`, each field zero-padded (the year to four digits). */
  function DatePart(d: DateTime): (r: string)
    requires Valid(d)
    ensures |r| == 10
  {
    PadDigits(d.year, 4) + "-" + PadDigits(d.month, 2) + "-" + PadDigits(d.day, 2)
  }

  /** `HH:MM`, zero-padded. */
  function MinutePart(d: DateTime): (r: string)
    requires Valid(d)
    ensures |r| == 5
  {
    PadDigits(d.hour, 2) + ":" + PadDigits(d.minute, 2)
  }

  /** `get_datestr_up_to_min`: `strftime("%Y-%m-%d %H:%M")`. */
  function DatestrUpToMin(d: DateTime): (r: string)
    requires Valid(d)
    ensures |r| == 16
  {
    DatePart(d) + " " + MinutePart(d)
  }

  /**
   * `isoformat()` of a naive datetime: `YYYY-MM-DDTHH:MM:SS`, then `.ffffff` only when the
   * microsecond is not zero.
   */
  function IsoFormat(d: DateTime): (r: string)
    requires Valid(d)
    ensures |r| == (if d.microsecond == 0 then 19 else 26)
  {
    DatePart(d) + "T" + MinutePart(d) + ":" + PadDigits(d.second, 2) + (if d.microsecond == 0 then "" else "." + PadDigits(d.microsecond, 6))
  }

  predicate AllDigits(s: string)
  {
    forall i :: 0 <= i < |s| ==> '0' <= s[i] <= '9'
  }

  /** The three numbers of a `YYYY-MM-DD` string. */
  function DatePartFields(s: string): (int, int, int)
    requires |s| == 10 && AllDigits(s[0..4]) && AllDigits(s[5..7]) && AllDigits(s[8..10])
  {
    (DigitsValue(s[0..4]), DigitsValue(s[5..7]), DigitsValue(s[8..10]))
  }

  /** The two numbers of a `HH:MM` string. */
  function MinutePartFields(s: string): (int, int)
    requires |s| == 5 && AllDigits(s[0..2]) && AllDigits(s[3..5])
  {
    (DigitsValue(s[0..2]), DigitsValue(s[3..5]))
  }

  lemma DatePartRoundTrip(d: DateTime)
    requires Valid(d)
    ensures var s := DatePart(d);
      AllDigits(s[0..4]) && AllDigits(s[5..7]) && AllDigits(s[8..10]) && DatePartFields(s) == (d.year, d.month, d.day)
  {
    var s := DatePart(d);
    assert s[0..4] == PadDigits(d.year, 4);
    assert s[5..7] == PadDigits(d.month, 2);
    assert s[8..10] == PadDigits(d.day, 2);
    PadDigitsRoundTrip(d.year, 4);
    PadDigitsRoundTrip(d.month, 2);
    PadDigitsRoundTrip(d.day, 2);
  }

  lemma MinutePartRoundTrip(d: DateTime)
    requires Valid(d)
    ensures var s := MinutePart(d);
      AllDigits(s[0..2]) && AllDigits(s[3..5]) && MinutePartFields(s) == (d.hour, d.minute)
  {
    var s := MinutePart(d);
    assert s[0..2] == PadDigits(d.hour, 2);
    assert s[3..5] == PadDigits(d.minute, 2);
    PadDigitsRoundTrip(d.hour, 2);
    PadDigitsRoundTrip(d.minute, 2);
  }

  /** The minute string reads back as the date's fields up to the minute. */
  lemma DatestrUpToMinRoundTrip(d: DateTime)
    requires Valid(d)
    ensures var s := DatestrUpToMin(d);
      && s[10] == ' '
      && AllDigits(s[0..4]) && AllDigits(s[5..7]) && AllDigits(s[8..10]) && AllDigits(s[11..13]) && AllDigits(s[14..16])
      && DatePartFields(s[..10]) == (d.year, d.month, d.day)
      && MinutePartFields(s[11..]) == (d.hour, d.minute)
  {
    var s := DatestrUpToMin(d);
    assert s[..10] == DatePart(d);
    assert s[11..] == MinutePart(d);
    DatePartRoundTrip(d);
    MinutePartRoundTrip(d);
    assert s[0..4] == s[..10][0..4] && s[5..7] == s[..10][5..7] && s[8..10] == s[..10][8..10];
    assert s[11..13] == s[11..][0..2] && s[14..16] == s[11..][3..5];
  }

  /** Two valid dates give the same minute string exactly when they agree up to the minute. */
  lemma DatestrUpToMinSameMinute(a: DateTime, b: DateTime)
    requires Valid(a) && Valid(b)
    ensures DatestrUpToMin(a) == DatestrUpToMin(b) <==> RemoveSecPrecision(a) == RemoveSecPrecision(b)
  {
    DatestrUpToMinRoundTrip(a);
    DatestrUpToMinRoundTrip(b);
  }

  /** Two valid dates give the same ISO string exactly when they are the same date. */
  lemma IsoFormatInjective(a: DateTime, b: DateTime)
    requires Valid(a) && Valid(b)
    ensures IsoFormat(a) == IsoFormat(b) <==> a == b
  {
    if IsoFormat(a) == IsoFormat(b) {
      var s := IsoFormat(a);
      IsoFormatParts(a);
      IsoFormatParts(b);
      DatePartRoundTrip(a);
      DatePartRoundTrip(b);
      MinutePartRoundTrip(a);
      MinutePartRoundTrip(b);
      PadDigitsRoundTrip(a.second, 2);
      PadDigitsRoundTrip(b.second, 2);
      if a.microsecond != 0 {
        PadDigitsRoundTrip(a.microsecond, 6);
        PadDigitsRoundTrip(b.microsecond, 6);
      }
    }
  }

  /** Where each part of the ISO string sits. */
  lemma IsoFormatParts(d: DateTime)
    requires Valid(d)
    ensures var s := IsoFormat(d);
      && s[..10] == DatePart(d) && s[10] == 'T' && s[11..16] == MinutePart(d) && s[16] == ':'
      && s[17..19] == PadDigits(d.second, 2)
      && (d.microsecond != 0 ==> s[19] == '.' && s[20..] == PadDigits(d.microsecond, 6))
  {
  }

  /** Python's order on naive datetimes: field by field, year first. */
  predicate Before(a: DateTime, b: DateTime)
  {
    if a.year != b.year then a.year < b.year
    else if a.month != b.month then a.month < b.month
    else if a.day != b.day then a.day < b.day
    else if a.hour != b.hour then a.hour < b.hour
    else if a.minute != b.minute then a.minute < b.minute
    else if a.second != b.second then a.second < b.second
    else a.microsecond < b.microsecond
  }

  /** The order is strict and total. */
  lemma BeforeIsStrictTotal(a: DateTime, b: DateTime, c: DateTime)
    ensures !Before(a, a)
    ensures a != b ==> (Before(a, b) <==> !Before(b, a))
    ensures Before(a, b) && Before(b, c) ==> Before(a, c)
  {
  }
}
