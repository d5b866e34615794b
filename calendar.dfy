/**
 * The proleptic Gregorian calendar as JavaScript's `Date` sees it: day
 * numbers counted from 1970-01-01, the local-time constructor
 * `new Date(y, m, d)` with its carrying of out-of-range months and days, and
 * `getDay()`. Tomohiko Sakamoto's weekday formula is an independent
 * reference for the weekday.
 */
module Calendar {
  import opened Wrappers
  import opened Text

  predicate IsLeapYear(y: int)
  {
    y % 4 == 0 && (y % 100 != 0 || y % 400 == 0)
  }

  function DaysInMonth(y: int, m: int): int
    requires 1 <= m <= 12
  {
    if m == 2 then (if IsLeapYear(y) then 29 else 28)
    else if m == 4 || m == 6 || m == 9 || m == 11 then 30
    else 31
  }

  /** Ordinal of the first day of month m within a year that starts on 1 March (March is 0). */
  function MarchDayOfYear(m: int): int
    requires 1 <= m <= 12
  {
    (153 * (if m > 2 then m - 3 else m + 9) + 2) / 5
  }

  /**
   * Days from 1970-01-01 to y-m-d, for any integer year and any day offset d
   * (d past the end of the month runs into the following months).
   */
  function DaysFromCivil(y: int, m: int, d: int): int
    requires 1 <= m <= 12
  {
    var yy := if m <= 2 then y - 1 else y;
    var era := yy / 400;
    var yoe := yy % 400;
    era * 146097 + yoe * 365 + yoe / 4 - yoe / 100 + MarchDayOfYear(m) + d - 1 - 719468
  }

  lemma FloorDecompose(yy: int)
    ensures yy / 4 == (yy / 400) * 100 + (yy % 400) / 4
    ensures yy / 100 == (yy / 400) * 4 + (yy % 400) / 100
  {
    var era, yoe := yy / 400, yy % 400;
    assert yy == 400 * era + yoe;
    assert yy == 4 * (100 * era + yoe / 4) + yoe % 4;
    assert yy == 100 * (4 * era + yoe / 100) + yoe % 100;
  }

  /** Sakamoto's month offsets. */
  function SakamotoOffset(m: int): int
    requires 1 <= m <= 12
  {
    [0, 3, 2, 5, 0, 3, 5, 1, 4, 6, 2, 4][m - 1]
  }

  /** Weekday of y-m-d (0 = Sunday) by Sakamoto's formula. */
  function SakamotoWeekday(y: int, m: int, d: int): int
    requires 1 <= m <= 12
  {
    var yy := if m < 3 then y - 1 else y;
    (yy + yy / 4 - yy / 100 + yy / 400 + SakamotoOffset(m) + d) % 7
  }

  lemma MonthOffsetsAgree(m: int)
    requires 1 <= m <= 12
    ensures (MarchDayOfYear(m) - SakamotoOffset(m) - 719465) % 7 == 0
  {
  }

  lemma ModAddMultiple(a: int, k: int)
    ensures (a + 7 * k) % 7 == a % 7
  {
  }

  /** 1970-01-01 was a Thursday, so day number n falls on weekday (n + 4) mod 7; Sakamoto agrees for every date. */
  lemma WeekdayAgreesWithSakamoto(y: int, m: int, d: int)
    requires 1 <= m <= 12
    ensures (DaysFromCivil(y, m, d) + 4) % 7 == SakamotoWeekday(y, m, d)
  {
    var yy := if m < 3 then y - 1 else y;
    var era, yoe := yy / 400, yy % 400;
    FloorDecompose(yy);
    MonthOffsetsAgree(m);
    var diff := MarchDayOfYear(m) - SakamotoOffset(m) - 719465;
    var c := diff / 7;
    assert diff == 7 * c;
    var sakamotoSum := yy + yy / 4 - yy / 100 + yy / 400 + SakamotoOffset(m) + d;
    var k := era * 20800 + yoe * 52 + c;
    assert DaysFromCivil(y, m, d) + 4 == sakamotoSum + 7 * k;
    ModAddMultiple(sakamotoSum, k);
  }

  /** Dates are representable while their time value stays within 8.64e15 ms of the epoch: 1e8 days. */
  const MaxTimeDays: int := 100000000

  /**
   * Day number of the local-time instant `new Date(y, m0, d)` (m0 counts from
   * 0): the month carries into the year (ECMAScript MakeDay), the day is an
   * offset from the first of the month, and a year 0..99 means 1900 + year.
   */
  function JsDayNumber(y: int, m0: int, d: int): int
  {
    var yr := if 0 <= y <= 99 then 1900 + y else y;
    DaysFromCivil(yr + m0 / 12, m0 % 12 + 1, 1) + d - 1
  }

  /** `new Date(y, m0, d).getDay()`, or `None` (NaN) when the instant is out of range. */
  function JsGetDay(y: int, m0: int, d: int): (r: Option<int>)
    ensures r.Some? ==> 0 <= r.value < 7
  {
    var n := JsDayNumber(y, m0, d);
    if -MaxTimeDays <= n <= MaxTimeDays then Some((n + 4) % 7) else None
  }

  /** The ISO 8601 extended calendar date `YYYY-MM-DD`. */
  function IsoDate(y: nat, m: nat, d: nat): string
  {
    PadDigits(y, 4) + "-" + PadDigits(m, 2) + "-" + PadDigits(d, 2)
  }

  /** For a real calendar date after year 99, the constructor's day number is the civil day number. */
  lemma JsDayNumberOfCivilDate(y: int, m: int, d: int)
    requires 100 <= y <= 9999 && 1 <= m <= 12 && 1 <= d <= DaysInMonth(y, m)
    ensures JsDayNumber(y, m - 1, d) == DaysFromCivil(y, m, d)
    ensures -MaxTimeDays <= JsDayNumber(y, m - 1, d) <= MaxTimeDays
  {
    assert (m - 1) / 12 == 0 && (m - 1) % 12 + 1 == m;
    assert JsDayNumber(y, m - 1, d) == DaysFromCivil(y, m, 1) + d - 1;
    DaysFromCivilBounds(y, m, d);
  }

  /** From year 100 to 9999 the civil day number stays far inside the representable range. */
  lemma DaysFromCivilBounds(y: int, m: int, d: int)
    requires 100 <= y <= 9999 && 1 <= m <= 12 && 1 <= d <= 31
    ensures -MaxTimeDays <= DaysFromCivil(y, m, d) <= MaxTimeDays
  {
    var yy := if m <= 2 then y - 1 else y;
    var era, yoe := yy / 400, yy % 400;
    assert 0 <= era <= 24 && 0 <= yoe < 400;
    assert 0 <= era * 146097 <= 24 * 146097;
    assert 0 <= MarchDayOfYear(m) <= 337;
  }
}
