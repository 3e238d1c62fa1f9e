/**
 * The timestamp codec: epoch seconds to and from the fixed text form
 * `YYYY-MM-DDTHH:MM:SSZ`, with the proleptic Gregorian calendar written out as
 * integer arithmetic, all instants read as UTC.
 */
module Utils {
  import opened Wrappers
  import Strings

  /** The one output format, in strftime notation. */
  const DATETIME_FORMAT: string := "%Y-%m-%dT%H:%M:%SZ"

  const SECONDS_PER_DAY: int := 86400
  /** Days from 0001-01-01 to 1970-01-01. */
  const EPOCH_ORDINAL: int := 719162
  /** Days in the years 1 to 9999, the range of Python's `datetime`. */
  const CALENDAR_DAYS: int := 3652059
  /** 0001-01-01T00:00:00Z and 9999-12-31T23:59:59Z as epoch seconds. */
  const MIN_TIMESTAMP: int := -62135596800
  const MAX_TIMESTAMP: int := 253402300799

  /** What the codec raises: `TypeError` for a wrong argument type, `ValueError` for a bad value. */
  datatype CodecError = TypeError | ValueError

  /** A broken-down UTC instant, as Python's naive `datetime` holds it (seconds resolution). */
  datatype DateTime = DateTime(year: int, month: int, day: int, hour: int, minute: int, second: int)

  predicate IsLeap(y: int) {
    y % 4 == 0 && (y % 100 != 0 || y % 400 == 0)
  }

  function DaysInYear(y: int): int {
    if IsLeap(y) then 366 else 365
  }

  function DaysInMonth(y: int, m: int): int
    requires 1 <= m <= 12
  {
    if m == 2 then (if IsLeap(y) then 29 else 28)
    else if m == 4 || m == 6 || m == 9 || m == 11 then 30
    else 31
  }

  /** Days of year `y` before the first of month `m`. */
  function DaysBeforeMonth(y: int, m: int): int
    requires 1 <= m <= 12
  {
    var common :=
      if m == 1 then 0 else if m == 2 then 31 else if m == 3 then 59
      else if m == 4 then 90 else if m == 5 then 120 else if m == 6 then 151
      else if m == 7 then 181 else if m == 8 then 212 else if m == 9 then 243
      else if m == 10 then 273 else if m == 11 then 304 else 334;
    common + (if m > 2 && IsLeap(y) then 1 else 0)
  }

  /** Days from 0001-01-01 to the first of January of year `y`. */
  function DaysBeforeYear(y: int): int
    requires y >= 1
  {
    var p := y - 1;
    365 * p + p / 4 - p / 100 + p / 400
  }

  predicate ValidDate(y: int, m: int, d: int) {
    1 <= y <= 9999 && 1 <= m <= 12 && 1 <= d <= DaysInMonth(y, m)
  }

  predicate Valid(dt: DateTime) {
    ValidDate(dt.year, dt.month, dt.day)
    && 0 <= dt.hour < 24 && 0 <= dt.minute < 60 && 0 <= dt.second < 60
  }

  /** Days from 0001-01-01 to the given date (Python's `toordinal()` minus one). */
  function Ordinal(y: int, m: int, d: int): int
    requires ValidDate(y, m, d)
  {
    DaysBeforeYear(y) + DaysBeforeMonth(y, m) + d - 1
  }

  /** The year count splits into 400-, 100-, 4- and 1-year cycles. */
  lemma CycleDecomposition(a: int, b: int, c: int, e: int)
    requires a >= 0 && 0 <= b <= 3 && 0 <= c <= 24 && 0 <= e <= 3
    ensures DaysBeforeYear(400 * a + 100 * b + 4 * c + e + 1) == 146097 * a + 36524 * b + 1461 * c + 365 * e
    ensures IsLeap(400 * a + 100 * b + 4 * c + e + 1) <==> e == 3 && (c != 24 || b == 3)
  {
    var p := 400 * a + 100 * b + 4 * c + e;
    assert p / 4 == 100 * a + 25 * b + c;
    assert p / 100 == 4 * a + b;
    assert p / 400 == a;
    var y := p + 1;
    if e == 3 {
      assert y / 4 == 100 * a + 25 * b + c + 1;
      if c == 24 {
        assert y / 100 == 4 * a + b + 1;
        if b == 3 {
          assert y / 400 == a + 1;
        } else {
          assert y / 400 == a;
        }
      } else {
        assert y / 100 == 4 * a + b;
      }
    } else {
      assert y / 4 == 100 * a + 25 * b + c;
    }
  }

  /** The year in which day `n` falls and the 0-based day within that year. */
  function YearAndDay(n: int): (r: (int, int))
    requires 0 <= n < CALENDAR_DAYS
    ensures 1 <= r.0 <= 9999 && 0 <= r.1 < DaysInYear(r.0)
    ensures DaysBeforeYear(r.0) + r.1 == n
  {
    var q400 := n / 146097;
    var r400 := n % 146097;
    var q100 := if r400 / 36524 == 4 then 3 else r400 / 36524;
    var r100 := r400 - 36524 * q100;
    var q4 := r100 / 1461;
    var r4 := r100 % 1461;
    var q1 := if r4 / 365 == 4 then 3 else r4 / 365;
    var r1 := r4 - 365 * q1;
    CycleDecomposition(q400, q100, q4, q1);
    (400 * q400 + 100 * q100 + 4 * q4 + q1 + 1, r1)
  }

  /** The last day of month `m` ends where the next month (or the year) begins. */
  lemma MonthBoundaries(y: int, m: int)
    requires 1 <= m <= 12
    ensures DaysBeforeMonth(y, 1) == 0
    ensures m < 12 ==> DaysBeforeMonth(y, m) + DaysInMonth(y, m) == DaysBeforeMonth(y, m + 1)
    ensures m == 12 ==> DaysBeforeMonth(y, m) + DaysInMonth(y, m) == DaysInYear(y)
  {
  }

  /** The month holding 0-based day `doy`, searched downward from month `m`. */
  function FindMonth(y: int, doy: int, m: int): (r: int)
    requires 1 <= m <= 12 && 0 <= doy < DaysBeforeMonth(y, m) + DaysInMonth(y, m)
    ensures 1 <= r <= m
    ensures DaysBeforeMonth(y, r) <= doy < DaysBeforeMonth(y, r) + DaysInMonth(y, r)
    decreases m
  {
    MonthBoundaries(y, m);
    if m == 1 || DaysBeforeMonth(y, m) <= doy then m
    else
      MonthBoundaries(y, m - 1);
      FindMonth(y, doy, m - 1)
  }

  /** The calendar date of day `n` counted from 0001-01-01 (Python's `fromordinal(n + 1)`). */
  function FromOrdinal(n: int): (r: (int, int, int))
    requires 0 <= n < CALENDAR_DAYS
    ensures ValidDate(r.0, r.1, r.2) && Ordinal(r.0, r.1, r.2) == n
  {
    var (y, doy) := YearAndDay(n);
    MonthBoundaries(y, 12);
    var m := FindMonth(y, doy, 12);
    (y, m, doy - DaysBeforeMonth(y, m) + 1)
  }

  /** Seconds since 1970-01-01T00:00:00Z of a valid instant. */
  function ToTimestamp(dt: DateTime): int
    requires Valid(dt)
  {
    (Ordinal(dt.year, dt.month, dt.day) - EPOCH_ORDINAL) * SECONDS_PER_DAY
    + dt.hour * 3600 + dt.minute * 60 + dt.second
  }

  /** The UTC instant `t` seconds after the epoch (Python's `utcfromtimestamp(t)`). */
  function FromTimestamp(t: int): (dt: DateTime)
    requires MIN_TIMESTAMP <= t <= MAX_TIMESTAMP
    ensures Valid(dt) && ToTimestamp(dt) == t
  {
    var days := t / SECONDS_PER_DAY;
    var secs := t % SECONDS_PER_DAY;
    var (y, m, d) := FromOrdinal(days + EPOCH_ORDINAL);
    var hour, rest := secs / 3600, secs % 3600;
    assert secs == hour * 3600 + rest / 60 * 60 + rest % 60;
    DateTime(y, m, d, hour, rest / 60, rest % 60)
  }

  lemma {:induction false} DaysBeforeYearStep(y: int)
    requires y >= 1
    ensures DaysBeforeYear(y + 1) == DaysBeforeYear(y) + DaysInYear(y)
  {
    var p := y - 1;
    if y % 4 == 0 {
      assert y / 4 == p / 4 + 1;
    } else {
      assert y / 4 == p / 4;
    }
    if y % 100 == 0 {
      assert y / 100 == p / 100 + 1;
    } else {
      assert y / 100 == p / 100;
    }
    if y % 400 == 0 {
      assert y / 400 == p / 400 + 1;
    } else {
      assert y / 400 == p / 400;
    }
  }

  /** A later year begins no earlier than the end of an earlier one. */
  lemma {:induction false} DaysBeforeYearGrows(a: int, b: int)
    requires 1 <= a < b
    ensures DaysBeforeYear(a) + DaysInYear(a) <= DaysBeforeYear(b)
    decreases b - a
  {
    DaysBeforeYearStep(a);
    if a + 1 < b {
      DaysBeforeYearGrows(a + 1, b);
    }
  }

  /** An earlier month ends no later than a later month begins. */
  lemma {:induction false} DaysBeforeMonthGrows(y: int, a: int, b: int)
    requires 1 <= a < b <= 12
    ensures DaysBeforeMonth(y, a) + DaysInMonth(y, a) <= DaysBeforeMonth(y, b)
    decreases b - a
  {
    MonthBoundaries(y, a);
    if a + 1 < b {
      DaysBeforeMonthGrows(y, a + 1, b);
    }
  }

  /** A valid date's day within its year is below the year's length. */
  lemma DayOfYearBound(y: int, m: int, d: int)
    requires ValidDate(y, m, d)
    ensures DaysBeforeMonth(y, m) + d - 1 < DaysInYear(y)
  {
    MonthBoundaries(y, m);
    MonthBoundaries(y, 12);
    if m < 12 {
      DaysBeforeMonthGrows(y, m, 12);
    }
  }

  /** Calendar order on dates, year first. */
  predicate DateLess(y1: int, m1: int, d1: int, y2: int, m2: int, d2: int) {
    y1 < y2 || (y1 == y2 && (m1 < m2 || (m1 == m2 && d1 < d2)))
  }

  /** Calendar order on instants, year first and second last. */
  predicate Before(a: DateTime, b: DateTime) {
    DateLess(a.year, a.month, a.day, b.year, b.month, b.day)
    || ((a.year, a.month, a.day) == (b.year, b.month, b.day)
        && (a.hour < b.hour || (a.hour == b.hour
            && (a.minute < b.minute || (a.minute == b.minute && a.second < b.second)))))
  }

  /** Day numbering follows calendar order. */
  lemma OrdinalMonotone(y1: int, m1: int, d1: int, y2: int, m2: int, d2: int)
    requires ValidDate(y1, m1, d1) && ValidDate(y2, m2, d2)
    requires DateLess(y1, m1, d1, y2, m2, d2)
    ensures Ordinal(y1, m1, d1) < Ordinal(y2, m2, d2)
  {
    DayOfYearBound(y1, m1, d1);
    if y1 < y2 {
      DaysBeforeYearGrows(y1, y2);
    } else if m1 < m2 {
      DaysBeforeMonthGrows(y1, m1, m2);
    }
  }

  /** Epoch seconds follow calendar order. */
  lemma TimestampMonotone(a: DateTime, b: DateTime)
    requires Valid(a) && Valid(b) && Before(a, b)
    ensures ToTimestamp(a) < ToTimestamp(b)
  {
    if DateLess(a.year, a.month, a.day, b.year, b.month, b.day) {
      OrdinalMonotone(a.year, a.month, a.day, b.year, b.month, b.day);
    }
  }

  /** Two different valid instants are ordered one way or the other. */
  lemma BeforeTotal(a: DateTime, b: DateTime)
    ensures a == b || Before(a, b) || Before(b, a)
  {
  }

  /** Every valid instant has an epoch value in range, from which it is recovered. */
  lemma ToTimestampRoundTrip(dt: DateTime)
    requires Valid(dt)
    ensures MIN_TIMESTAMP <= ToTimestamp(dt) <= MAX_TIMESTAMP
    ensures FromTimestamp(ToTimestamp(dt)) == dt
  {
    var t := ToTimestamp(dt);
    var n := Ordinal(dt.year, dt.month, dt.day);
    DayOfYearBound(dt.year, dt.month, dt.day);
    DaysBeforeYearStep(9999);
    if dt.year < 9999 {
      DaysBeforeYearGrows(dt.year, 9999);
    }
    assert 0 <= n < CALENDAR_DAYS;
    var other := FromTimestamp(t);
    BeforeTotal(dt, other);
    if Before(dt, other) {
      TimestampMonotone(dt, other);
    } else if Before(other, dt) {
      TimestampMonotone(other, dt);
    }
  }

  /** Epoch order and calendar order agree. */
  lemma FromTimestampMonotone(t1: int, t2: int)
    requires MIN_TIMESTAMP <= t1 < t2 <= MAX_TIMESTAMP
    ensures Before(FromTimestamp(t1), FromTimestamp(t2))
  {
    var a, b := FromTimestamp(t1), FromTimestamp(t2);
    BeforeTotal(a, b);
    if Before(b, a) {
      TimestampMonotone(b, a);
    }
  }

  predicate IsDigit(c: char) {
    '0' <= c <= '9'
  }

  function DigitValue(c: char): int
    requires IsDigit(c)
  {
    c as int - '0' as int
  }

  predicate DigitsAt(s: string, lo: int, hi: int)
    requires 0 <= lo <= hi <= |s|
  {
    forall i :: lo <= i < hi ==> IsDigit(s[i])
  }

  /** Two digits, zero-padded. */
  function Pad2(x: int): (s: string)
    requires 0 <= x < 100
    ensures |s| == 2 && DigitsAt(s, 0, 2)
  {
    [Strings.DigitChar(x / 10), Strings.DigitChar(x % 10)]
  }

  /** Four digits, zero-padded. */
  function Pad4(x: int): (s: string)
    requires 0 <= x < 10000
    ensures |s| == 4 && DigitsAt(s, 0, 4)
  {
    Pad2(x / 100) + Pad2(x % 100)
  }

  /** The number written by the two digits at `i`. */
  function Read2(s: string, i: int): int
    requires 0 <= i && i + 2 <= |s| && DigitsAt(s, i, i + 2)
  {
    10 * DigitValue(s[i]) + DigitValue(s[i + 1])
  }

  /** The number written by the four digits at `i`. */
  function Read4(s: string, i: int): int
    requires 0 <= i && i + 4 <= |s| && DigitsAt(s, i, i + 4)
  {
    100 * Read2(s, i) + Read2(s, i + 2)
  }

  /** The number written by the six digits at `i`. */
  function Read6(s: string, i: int): int
    requires 0 <= i && i + 6 <= |s| && DigitsAt(s, i, i + 6)
  {
    10000 * Read2(s, i) + Read4(s, i + 2)
  }

  /** `YYYY-MM-DDTHH:MM:SS` in the first 19 characters; strptime matches `T` in either case. */
  predicate HasDateTimePrefix(s: string) {
    |s| >= 19
    && DigitsAt(s, 0, 4) && s[4] == '-' && DigitsAt(s, 5, 7) && s[7] == '-' && DigitsAt(s, 8, 10)
    && (s[10] == 'T' || s[10] == 't')
    && DigitsAt(s, 11, 13) && s[13] == ':' && DigitsAt(s, 14, 16) && s[16] == ':' && DigitsAt(s, 17, 19)
  }

  predicate IsZone(c: char) {
    c == 'Z' || c == 'z'
  }

  /** The shape of DATETIME_FORMAT: `YYYY-MM-DDTHH:MM:SSZ`. */
  predicate HasFormatShape(s: string) {
    |s| == 20 && HasDateTimePrefix(s) && IsZone(s[19])
  }

  /** The shape of the microsecond form `YYYY-MM-DDTHH:MM:SS.ffffffZ`. */
  predicate HasMicrosecondShape(s: string) {
    |s| == 27 && HasDateTimePrefix(s) && s[19] == '.' && DigitsAt(s, 20, 26) && IsZone(s[26])
  }

  /** The six fields written in the first 19 characters. */
  function PrefixFields(s: string): DateTime
    requires HasDateTimePrefix(s)
  {
    DateTime(Read4(s, 0), Read2(s, 5), Read2(s, 8), Read2(s, 11), Read2(s, 14), Read2(s, 17))
  }

  /** `datetime.strptime(s, DATETIME_FORMAT)`: the shape must match and the fields form a real instant. */
  function ParseDateTime(s: string): Option<DateTime> {
    if HasFormatShape(s) && Valid(PrefixFields(s)) then Some(PrefixFields(s)) else None
  }

  /** `datetime.strptime(s, "%Y-%m-%dT%H:%M:%S.%fZ")`: the instant and its microseconds. */
  function ParseMicrosecondDateTime(s: string): Option<(DateTime, int)> {
    if HasMicrosecondShape(s) && Valid(PrefixFields(s)) then Some((PrefixFields(s), Read6(s, 20))) else None
  }

  /** `dt.strftime(DATETIME_FORMAT)`. */
  function Format(dt: DateTime): (s: string)
    requires Valid(dt)
    ensures HasFormatShape(s) && s[10] == 'T' && s[19] == 'Z'
  {
    var s := Pad4(dt.year) + "-" + Pad2(dt.month) + "-" + Pad2(dt.day) + "T"
      + Pad2(dt.hour) + ":" + Pad2(dt.minute) + ":" + Pad2(dt.second) + "Z";
    FormatLayout(dt, s);
    s
  }

  /** Where each field of a formatted instant sits. */
  lemma FormatLayout(dt: DateTime, s: string)
    requires Valid(dt)
    requires s == Pad4(dt.year) + "-" + Pad2(dt.month) + "-" + Pad2(dt.day) + "T"
      + Pad2(dt.hour) + ":" + Pad2(dt.minute) + ":" + Pad2(dt.second) + "Z"
    ensures |s| == 20
    ensures s[0..4] == Pad4(dt.year) && s[5..7] == Pad2(dt.month) && s[8..10] == Pad2(dt.day)
    ensures s[11..13] == Pad2(dt.hour) && s[14..16] == Pad2(dt.minute) && s[17..19] == Pad2(dt.second)
    ensures s[4] == '-' && s[7] == '-' && s[10] == 'T' && s[13] == ':' && s[16] == ':' && s[19] == 'Z'
    ensures HasFormatShape(s)
  {
    assert forall i :: 0 <= i < 4 ==> s[i] == Pad4(dt.year)[i];
    assert forall i :: 5 <= i < 7 ==> s[i] == Pad2(dt.month)[i - 5];
    assert forall i :: 8 <= i < 10 ==> s[i] == Pad2(dt.day)[i - 8];
    assert forall i :: 11 <= i < 13 ==> s[i] == Pad2(dt.hour)[i - 11];
    assert forall i :: 14 <= i < 16 ==> s[i] == Pad2(dt.minute)[i - 14];
    assert forall i :: 17 <= i < 19 ==> s[i] == Pad2(dt.second)[i - 17];
  }

  lemma ReadPad2(s: string, i: int, x: int)
    requires 0 <= x < 100 && 0 <= i && i + 2 <= |s| && s[i..i + 2] == Pad2(x)
    ensures DigitsAt(s, i, i + 2) && Read2(s, i) == x
  {
    assert s[i] == Pad2(x)[0] && s[i + 1] == Pad2(x)[1];
  }

  lemma ReadPad4(s: string, i: int, x: int)
    requires 0 <= x < 10000 && 0 <= i && i + 4 <= |s| && s[i..i + 4] == Pad4(x)
    ensures DigitsAt(s, i, i + 4) && Read4(s, i) == x
  {
    var w := s[i..i + 4];
    assert w[0..2] == Pad2(x / 100) && w[2..4] == Pad2(x % 100);
    assert s[i..i + 2] == w[0..2] && s[i + 2..i + 4] == w[2..4];
    ReadPad2(s, i, x / 100);
    ReadPad2(s, i + 2, x % 100);
  }

  lemma PadRead2(s: string, i: int)
    requires 0 <= i && i + 2 <= |s| && DigitsAt(s, i, i + 2)
    ensures 0 <= Read2(s, i) < 100 && Pad2(Read2(s, i)) == s[i..i + 2]
  {
    assert IsDigit(s[i]) && IsDigit(s[i + 1]);
  }

  lemma PadRead4(s: string, i: int)
    requires 0 <= i && i + 4 <= |s| && DigitsAt(s, i, i + 4)
    ensures 0 <= Read4(s, i) < 10000 && Pad4(Read4(s, i)) == s[i..i + 4]
  {
    PadRead2(s, i);
    PadRead2(s, i + 2);
    var x := Read4(s, i);
    assert x / 100 == Read2(s, i) && x % 100 == Read2(s, i + 2);
    assert s[i..i + 4] == s[i..i + 2] + s[i + 2..i + 4];
  }

  /** Reading a formatted instant gives back its fields. */
  lemma {:induction false} ReadFormat(dt: DateTime)
    requires Valid(dt)
    ensures HasDateTimePrefix(Format(dt)) && PrefixFields(Format(dt)) == dt
  {
    var s := Format(dt);
    FormatLayout(dt, s);
    ReadPad4(s, 0, dt.year);
    ReadPad2(s, 5, dt.month);
    ReadPad2(s, 8, dt.day);
    ReadPad2(s, 11, dt.hour);
    ReadPad2(s, 14, dt.minute);
    ReadPad2(s, 17, dt.second);
  }

  /** A string of the format's shape with `T` and `Z` in upper case. */
  function Canonical(s: string): (c: string)
    requires HasFormatShape(s)
    ensures |c| == 20 && c[10] == 'T' && c[19] == 'Z'
    ensures forall i :: 0 <= i < 20 && i != 10 && i != 19 ==> c[i] == s[i]
  {
    s[..10] + "T" + s[11..19] + "Z"
  }

  /** Formatting the fields that were read gives back the text, up to the case of `T` and `Z`. */
  lemma {:induction false} FormatRead(s: string)
    requires HasFormatShape(s) && Valid(PrefixFields(s))
    ensures Format(PrefixFields(s)) == Canonical(s)
  {
    var dt := PrefixFields(s);
    var f := Format(dt);
    var c := Canonical(s);
    FormatLayout(dt, f);
    PadRead4(s, 0);
    PadRead2(s, 5);
    PadRead2(s, 8);
    PadRead2(s, 11);
    PadRead2(s, 14);
    PadRead2(s, 17);
    assert forall i :: 0 <= i < 4 ==> f[i] == s[0..4][i];
    assert forall i :: 5 <= i < 7 ==> f[i] == s[5..7][i - 5];
    assert forall i :: 8 <= i < 10 ==> f[i] == s[8..10][i - 8];
    assert forall i :: 11 <= i < 13 ==> f[i] == s[11..13][i - 11];
    assert forall i :: 14 <= i < 16 ==> f[i] == s[14..16][i - 14];
    assert forall i :: 17 <= i < 19 ==> f[i] == s[17..19][i - 17];
    assert forall i :: 0 <= i < 20 ==> f[i] == c[i];
  }

  /** Python's `int()` of a float truncates toward zero; a fraction lifts a negative count of seconds by one. */
  function TruncatedSeconds(seconds: int, microseconds: int): int {
    if seconds < 0 && microseconds > 0 then seconds + 1 else seconds
  }

  /** `get_datetime_from_timestamp`, as intended: `None` stays `None`, an instant in Python's range is formatted. */
  function DatetimeFromTimestamp(timestamp: Option<int>): Result<Option<string>, CodecError> {
    match timestamp
    case None => Ok(None)
    case Some(t) =>
      if MIN_TIMESTAMP <= t <= MAX_TIMESTAMP then Ok(Some(Format(FromTimestamp(t)))) else Err(ValueError)
  }

  /** `get_datetime_from_timestamp` as written: `datetime.strftime` is handed the `str` from `isoformat()`. */
  function DatetimeFromTimestampAsWritten(timestamp: Option<int>): Result<Option<string>, CodecError> {
    match timestamp
    case None => Ok(None)
    case Some(t) => if MIN_TIMESTAMP <= t <= MAX_TIMESTAMP then Err(TypeError) else Err(ValueError)
  }

  /** `get_timestamp_from_datetime` as written: only DATETIME_FORMAT is tried. */
  function TimestampFromDatetimeAsWritten(dateStr: Option<string>): Result<Option<int>, CodecError> {
    match dateStr
    case None => Ok(None)
    case Some(s) =>
      match ParseDateTime(s)
      case Some(dt) => Ok(Some(ToTimestamp(dt)))
      case None => Err(ValueError)
  }

  /** `get_timestamp_from_datetime`, as intended: DATETIME_FORMAT first, then the microsecond form. */
  function TimestampFromDatetime(dateStr: Option<string>): Result<Option<int>, CodecError> {
    match dateStr
    case None => Ok(None)
    case Some(s) =>
      match ParseDateTime(s)
      case Some(dt) => Ok(Some(ToTimestamp(dt)))
      case None =>
        match ParseMicrosecondDateTime(s)
        case Some((dt, us)) => Ok(Some(TruncatedSeconds(ToTimestamp(dt), us)))
        case None => Err(ValueError)
  }

  /** Both conversions map `None` to `None`, and only `None`: 0 is an ordinary instant. */
  lemma NoneToNone(t: Option<int>, s: Option<string>)
    ensures DatetimeFromTimestamp(None) == Ok(None) && TimestampFromDatetime(None) == Ok(None)
    ensures DatetimeFromTimestamp(t) == Ok(None) ==> t == None
    ensures TimestampFromDatetime(s) == Ok(None) ==> s == None
  {
  }

  /** Formatting yields exactly the fixed shape of DATETIME_FORMAT, fails only outside years 1..9999, and never on `None`. */
  lemma FormatShape(t: int)
    ensures DatetimeFromTimestamp(Some(t)).Ok? <==> MIN_TIMESTAMP <= t <= MAX_TIMESTAMP
    ensures DatetimeFromTimestamp(Some(t)).Ok? ==>
      var s := DatetimeFromTimestamp(Some(t)).value;
      s.Some? && HasFormatShape(s.value) && s.value[10] == 'T' && s.value[19] == 'Z'
  {
  }

  /** Text to epoch seconds undoes epoch seconds to text, for every instant Python can represent. */
  lemma {:induction false} CodecRoundTrip(t: int)
    requires MIN_TIMESTAMP <= t <= MAX_TIMESTAMP
    ensures DatetimeFromTimestamp(Some(t)).Ok?
    ensures TimestampFromDatetime(DatetimeFromTimestamp(Some(t)).value) == Ok(Some(t))
    ensures TimestampFromDatetimeAsWritten(DatetimeFromTimestamp(Some(t)).value) == Ok(Some(t))
  {
    var dt := FromTimestamp(t);
    ReadFormat(dt);
  }

  /** Epoch seconds to text undoes text to epoch seconds, up to the case of `T` and `Z`. */
  lemma {:induction false} CodecRoundTripFromText(s: string)
    requires TimestampFromDatetimeAsWritten(Some(s)).Ok?
    ensures HasFormatShape(s)
    ensures TimestampFromDatetime(Some(s)) == TimestampFromDatetimeAsWritten(Some(s))
    ensures DatetimeFromTimestamp(TimestampFromDatetime(Some(s)).value) == Ok(Some(Canonical(s)))
  {
    var dt := PrefixFields(s);
    ToTimestampRoundTrip(dt);
    FormatRead(s);
  }

  /** The as-written parser accepts exactly the renderings of instants, with `T` and `Z` in either case. */
  lemma {:induction false} AsWrittenParserAcceptsExactlyTheFormat(s: string)
    ensures TimestampFromDatetimeAsWritten(Some(s)).Ok? <==>
      HasFormatShape(s) && exists dt :: Valid(dt) && Format(dt) == Canonical(s)
  {
    if TimestampFromDatetimeAsWritten(Some(s)).Ok? {
      FormatRead(s);
    }
    if HasFormatShape(s) && exists dt :: Valid(dt) && Format(dt) == Canonical(s) {
      var dt :| Valid(dt) && Format(dt) == Canonical(s);
      ReadFormat(dt);
      CanonicalFields(s);
    }
  }

  /** Fixing the case of `T` and `Z` leaves the fields as they read. */
  lemma CanonicalFields(s: string)
    requires HasFormatShape(s)
    ensures HasDateTimePrefix(Canonical(s)) && PrefixFields(Canonical(s)) == PrefixFields(s)
  {
    var c := Canonical(s);
    assert c[..10] == s[..10] && c[11..19] == s[11..19];
    assert Read4(c, 0) == Read4(s, 0);
    assert Read2(c, 5) == Read2(s, 5) && Read2(c, 8) == Read2(s, 8);
    assert Read2(c, 11) == Read2(s, 11) && Read2(c, 14) == Read2(s, 14) && Read2(c, 17) == Read2(s, 17);
  }

  lemma Pad2Less(x: int, y: int)
    requires 0 <= x < y < 100
    ensures Strings.Less(Pad2(x), Pad2(y))
  {
    var a, b := Pad2(x), Pad2(y);
    if x / 10 == y / 10 {
      assert a[1..] == [a[1]] && b[1..] == [b[1]];
    }
  }

  lemma Pad4Less(x: int, y: int)
    requires 0 <= x < y < 10000
    ensures Strings.Less(Pad4(x), Pad4(y))
  {
    if x / 100 < y / 100 {
      Pad2Less(x / 100, y / 100);
      Strings.LessAppend(Pad2(x / 100), Pad2(y / 100), Pad2(x % 100), Pad2(y % 100));
    } else {
      Pad2Less(x % 100, y % 100);
      Strings.LessCommonPrefix(Pad2(x / 100), Pad2(x % 100), Pad2(y % 100));
    }
  }

  function TailFromSecond(dt: DateTime): string
    requires Valid(dt)
  {
    ":" + Pad2(dt.second) + "Z"
  }

  function TailFromMinute(dt: DateTime): string
    requires Valid(dt)
  {
    ":" + Pad2(dt.minute) + TailFromSecond(dt)
  }

  function TailFromHour(dt: DateTime): string
    requires Valid(dt)
  {
    "T" + Pad2(dt.hour) + TailFromMinute(dt)
  }

  function TailFromDay(dt: DateTime): string
    requires Valid(dt)
  {
    "-" + Pad2(dt.day) + TailFromHour(dt)
  }

  function TailFromMonth(dt: DateTime): string
    requires Valid(dt)
  {
    "-" + Pad2(dt.month) + TailFromDay(dt)
  }

  /** Formatting moves from the year field by field to the second, each field after its separator. */
  lemma FormatTails(dt: DateTime)
    requires Valid(dt)
    ensures Format(dt) == "" + Pad4(dt.year) + TailFromMonth(dt)
  {
  }

  /** Formatting follows calendar order into string order. */
  lemma FormatMonotone(a: DateTime, b: DateTime)
    requires Valid(a) && Valid(b) && Before(a, b)
    ensures Strings.Less(Format(a), Format(b))
  {
    FormatTails(a);
    FormatTails(b);
    if a.year < b.year {
      Pad4Less(a.year, b.year);
    } else {
      if a.month < b.month {
        Pad2Less(a.month, b.month);
      } else {
        if a.day < b.day {
          Pad2Less(a.day, b.day);
        } else {
          if a.hour < b.hour {
            Pad2Less(a.hour, b.hour);
          } else {
            if a.minute < b.minute {
              Pad2Less(a.minute, b.minute);
            } else {
              Pad2Less(a.second, b.second);
              Strings.FieldLess(":", Pad2(a.second), Pad2(b.second), "Z", "Z");
            }
            Strings.FieldLess(":", Pad2(a.minute), Pad2(b.minute), TailFromSecond(a), TailFromSecond(b));
          }
          Strings.FieldLess("T", Pad2(a.hour), Pad2(b.hour), TailFromMinute(a), TailFromMinute(b));
        }
        Strings.FieldLess("-", Pad2(a.day), Pad2(b.day), TailFromHour(a), TailFromHour(b));
      }
      Strings.FieldLess("-", Pad2(a.month), Pad2(b.month), TailFromDay(a), TailFromDay(b));
    }
    Strings.FieldLess("", Pad4(a.year), Pad4(b.year), TailFromMonth(a), TailFromMonth(b));
  }

  /**
   * For instants in years 1..9999 (all written with four digits) the string order of
   * the formatted values is the numeric order of the epoch seconds: `max` over
   * bookmark strings picks the later instant.
   */
  lemma {:induction false} FormatOrderAgreesWithEpochOrder(t1: int, t2: int)
    requires MIN_TIMESTAMP <= t1 <= MAX_TIMESTAMP && MIN_TIMESTAMP <= t2 <= MAX_TIMESTAMP
    ensures Strings.Less(Format(FromTimestamp(t1)), Format(FromTimestamp(t2))) <==> t1 < t2
  {
    if t1 < t2 {
      FormatStrictlyMonotone(t1, t2);
    } else if t2 < t1 {
      FormatStrictlyMonotone(t2, t1);
    }
    Strings.LessMatchesOrder(Format(FromTimestamp(t1)), Format(FromTimestamp(t2)), t1, t2);
  }

  lemma FormatStrictlyMonotone(t1: int, t2: int)
    requires MIN_TIMESTAMP <= t1 < t2 <= MAX_TIMESTAMP
    ensures Strings.Less(Format(FromTimestamp(t1)), Format(FromTimestamp(t2)))
  {
    FromTimestampMonotone(t1, t2);
    FormatMonotone(FromTimestamp(t1), FromTimestamp(t2));
  }

  /** Six digits, zero-padded. */
  function Pad6(x: int): (s: string)
    requires 0 <= x < 1000000
    ensures |s| == 6
  {
    Pad2(x / 10000) + Pad4(x % 10000)
  }

  /** An instant written in the microsecond form `YYYY-MM-DDTHH:MM:SS.ffffffZ`. */
  function FormatMicroseconds(dt: DateTime, us: int): string
    requires Valid(dt) && 0 <= us < 1000000
  {
    Format(dt)[..19] + "." + Pad6(us) + "Z"
  }

  /** The intended parser reads the microsecond form back, truncating the fraction as `int()` does. */
  lemma {:induction false} MicrosecondFormParses(dt: DateTime, us: int)
    requires Valid(dt) && 0 <= us < 1000000
    ensures TimestampFromDatetime(Some(FormatMicroseconds(dt, us))) == Ok(Some(TruncatedSeconds(ToTimestamp(dt), us)))
    ensures TimestampFromDatetimeAsWritten(Some(FormatMicroseconds(dt, us))) == Err(ValueError)
  {
    var f := Format(dt);
    var s := FormatMicroseconds(dt, us);
    ReadFormat(dt);
    assert forall i :: 0 <= i < 19 ==> s[i] == f[i];
    assert s[20..26] == Pad6(us);
    var w := s[20..26];
    assert w[0..2] == Pad2(us / 10000) && w[2..6] == Pad4(us % 10000);
    assert s[20..22] == w[0..2] && s[22..26] == w[2..6];
    ReadPad2(s, 20, us / 10000);
    ReadPad4(s, 22, us % 10000);
    assert DigitsAt(s, 20, 26);
    assert PrefixFields(s) == PrefixFields(f);
    assert !HasFormatShape(s);
  }

  /** 1625077800 and "2021-06-30T18:30:00Z" correspond, in both directions. */
  lemma {:induction false} UtcTestVector()
    ensures DatetimeFromTimestamp(Some(1625077800)) == Ok(Some("2021-06-30T18:30:00Z"))
    ensures TimestampFromDatetime(Some("2021-06-30T18:30:00Z")) == Ok(Some(1625077800))
  {
    var dt := DateTime(2021, 6, 30, 18, 30, 0);
    assert DaysBeforeYear(2021) == 737790;
    assert ToTimestamp(dt) == 1625077800;
    ToTimestampRoundTrip(dt);
    assert Format(dt) == "2021-06-30T18:30:00Z";
    CodecRoundTrip(1625077800);
  }

  /** The bookmark form with microseconds reads as 1638353730 when intended, and raises as written. */
  lemma {:induction false} MicrosecondTestVector()
    ensures TimestampFromDatetime(Some("2021-12-01T10:15:30.000000Z")) == Ok(Some(1638353730))
    ensures TimestampFromDatetimeAsWritten(Some("2021-12-01T10:15:30.000000Z")) == Err(ValueError)
  {
    var dt := DateTime(2021, 12, 1, 10, 15, 30);
    assert DaysBeforeYear(2021) == 737790;
    assert ToTimestamp(dt) == 1638353730;
    assert Format(dt) == "2021-12-01T10:15:30Z";
    assert FormatMicroseconds(dt, 0) == "2021-12-01T10:15:30.000000Z";
    MicrosecondFormParses(dt, 0);
  }

  /** As written, formatting raises for every timestamp that is not `None`, so the test vector fails. */
  lemma AsWrittenFormatterAlwaysRaises(t: int)
    ensures DatetimeFromTimestampAsWritten(Some(t)).Err?
    ensures DatetimeFromTimestampAsWritten(Some(1625077800)) == Err(TypeError)
    ensures DatetimeFromTimestamp(Some(t)).Ok? ==> DatetimeFromTimestampAsWritten(Some(t)) != DatetimeFromTimestamp(Some(t))
  {
  }
}
