/**
 * The part of Go's `time` package the signer uses: an instant in UTC, broken
 * down into a proleptic Gregorian date and a time of day, and formatted with
 * the layouts "20060102" and "20060102T150405Z".
 *
 * An instant is an integer count of nanoseconds since 1970-01-01T00:00:00Z
 * (negative before it). Go keeps the fraction of a second in [0, 1e9), so the
 * whole second of an instant is its floor, which is Dafny's `/` on a positive
 * divisor.
 */
module GoTime {
  import opened GoStrconv

  const NanosPerSecond: int := 1_000_000_000
  const SecondsPerDay: int := 86400
  const UnixEpochYear: int := 1970

  predicate IsLeap(year: int) {
    year % 4 == 0 && (year % 100 != 0 || year % 400 == 0)
  }

  function DaysIn(year: int): int {
    if IsLeap(year) then 366 else 365
  }

  function DaysInMonth(year: int, month: int): int
    requires 1 <= month <= 12
  {
    if month == 2 then (if IsLeap(year) then 29 else 28)
    else if month == 4 || month == 6 || month == 9 || month == 11 then 30
    else 31
  }

  /** Days from the first of `month` to the end of `year`. */
  function DaysFromMonth(year: int, month: int): int
    requires 1 <= month <= 12
    decreases 12 - month
  {
    DaysInMonth(year, month) + (if month == 12 then 0 else DaysFromMonth(year, month + 1))
  }

  /** The twelve months make up the whole year. */
  lemma MonthsFillYear(year: int)
    ensures DaysFromMonth(year, 1) == DaysIn(year)
  {
    assert DaysFromMonth(year, 12) == 31;
    assert DaysFromMonth(year, 11) == 61;
    assert DaysFromMonth(year, 10) == 92;
    assert DaysFromMonth(year, 9) == 122;
    assert DaysFromMonth(year, 8) == 153;
    assert DaysFromMonth(year, 7) == 184;
    assert DaysFromMonth(year, 6) == 214;
    assert DaysFromMonth(year, 5) == 245;
    assert DaysFromMonth(year, 4) == 275;
    assert DaysFromMonth(year, 3) == 306;
  }

  /** The year holding the day `days` (>= 0) days after 1 January of `year`, and that day's index in it. */
  function YearForward(year: int, days: nat): (r: (int, nat))
    ensures r.1 < DaysIn(r.0)
    decreases days
  {
    if days < DaysIn(year) then (year, days) else YearForward(year + 1, days - DaysIn(year))
  }

  /** The year holding the day `days` days after 1 January of `year` (before it when negative). */
  function YearOf(year: int, days: int): (r: (int, nat))
    ensures r.1 < DaysIn(r.0)
    decreases if days < 0 then -days else 0
  {
    if days >= 0 then YearForward(year, days) else YearOf(year - 1, days + DaysIn(year - 1))
  }

  /** Month and day of month of the day `days` days after the first of `month`. */
  function MonthOf(year: int, month: int, days: nat): (r: (int, int))
    requires 1 <= month <= 12
    requires days < DaysFromMonth(year, month)
    ensures month <= r.0 <= 12
    ensures 1 <= r.1 <= DaysInMonth(year, r.0)
    decreases 12 - month
  {
    if days < DaysInMonth(year, month) then (month, days + 1)
    else MonthOf(year, month + 1, days - DaysInMonth(year, month))
  }

  /** The broken-down UTC time of an instant, to the second. */
  datatype DateTime = DateTime(year: int, month: int, day: int, hour: int, minute: int, second: int)

  predicate Valid(t: DateTime) {
    && 1 <= t.month <= 12
    && 1 <= t.day <= DaysInMonth(t.year, t.month)
    && 0 <= t.hour < 24
    && 0 <= t.minute < 60
    && 0 <= t.second < 60
  }

  /** `t.UTC()` read through `Date()` and `Clock()`. */
  function UTC(unixNanos: int): (t: DateTime)
    ensures Valid(t)
  {
    var secs := unixNanos / NanosPerSecond;
    var (year, yday) := YearOf(UnixEpochYear, secs / SecondsPerDay);
    MonthsFillYear(year);
    var (month, day) := MonthOf(year, 1, yday);
    var daySecond := secs % SecondsPerDay;
    DateTime(year, month, day, daySecond / 3600, daySecond % 3600 / 60, daySecond % 60)
  }

  /**
   * Go's `appendInt(b, x, width)` used by `Format`: a `-` for a negative
   * number, then its digits, padded with zeros on the left to `width`.
   */
  function AppendInt(x: int, width: nat): (r: string)
    ensures |r| == (if x < 0 then 1 else 0) + (if |Decimal(if x < 0 then -x else x)| < width then width else |Decimal(if x < 0 then -x else x)|)
  {
    var digits := Decimal(if x < 0 then -x else x);
    (if x < 0 then "-" else "") + (if |digits| < width then seq(width - |digits|, _ => '0') else "") + digits
  }

  /** `t.Format("20060102")`. */
  function FormatDate(t: DateTime): string {
    AppendInt(t.year, 4) + AppendInt(t.month, 2) + AppendInt(t.day, 2)
  }

  /** `t.Format("20060102T150405Z")`; the trailing `Z` is a literal of the layout. */
  function FormatDateTime(t: DateTime): string {
    FormatDate(t) + "T" + AppendInt(t.hour, 2) + AppendInt(t.minute, 2) + AppendInt(t.second, 2) + "Z"
  }

  /** A number below 10^width prints as exactly `width` digits. */
  lemma AppendIntFixed(x: int, width: nat)
    requires 1 <= width && 0 <= x < Pow10(width)
    ensures |AppendInt(x, width)| == width && AllDigits(AppendInt(x, width))
  {
    DecimalWidth(x, width);
  }

  /**
   * For a year from 0 to 9999 the date is 8 digits, the date-time 16
   * characters, and the date-time starts with the date.
   */
  lemma FormatShape(t: DateTime)
    requires Valid(t) && 0 <= t.year <= 9999
    ensures |FormatDate(t)| == 8 && AllDigits(FormatDate(t))
    ensures |FormatDateTime(t)| == 16
    ensures FormatDateTime(t)[..8] == FormatDate(t)
    ensures FormatDateTime(t)[8] == 'T' && FormatDateTime(t)[15] == 'Z'
  {
    assert Pow10(2) == 100 && Pow10(4) == 10000;
    AppendIntFixed(t.year, 4);
    AppendIntFixed(t.month, 2);
    AppendIntFixed(t.day, 2);
    AppendIntFixed(t.hour, 2);
    AppendIntFixed(t.minute, 2);
    AppendIntFixed(t.second, 2);
  }

  /** The Unix epoch and one day after it, broken down. */
  lemma EpochDaysUTC()
    ensures UTC(0) == DateTime(1970, 1, 1, 0, 0, 0)
    ensures UTC(SecondsPerDay * NanosPerSecond) == DateTime(1970, 1, 2, 0, 0, 0)
  {
    assert YearOf(UnixEpochYear, 0) == (1970, 0);
    assert YearOf(UnixEpochYear, 1) == (1970, 1);
  }

  /** The first two days of 1970, formatted. */
  lemma EpochFormats()
    ensures FormatDateTime(DateTime(1970, 1, 1, 0, 0, 0)) == "19700101T000000Z"
    ensures FormatDate(DateTime(1970, 1, 1, 0, 0, 0)) == "19700101"
    ensures FormatDateTime(DateTime(1970, 1, 2, 0, 0, 0)) == "19700102T000000Z"
  {
    assert Decimal(1970) == "1970";
    assert AppendInt(0, 2) == "00";
    assert AppendInt(1, 2) == "01";
    assert AppendInt(2, 2) == "02";
    assert FormatDate(DateTime(1970, 1, 1, 0, 0, 0)) == "19700101";
    assert FormatDate(DateTime(1970, 1, 2, 0, 0, 0)) == "19700102";
  }
}
