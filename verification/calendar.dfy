/**
 * The proleptic Gregorian calendar as the browser's `Date` object uses it in local
 * time: a civil date-time (year, month 0..11, day, milliseconds into the day) maps to
 * a day number counted from 1970-01-01 and to a millisecond instant. Months and days
 * out of range are carried into the neighbouring month or year, as `new Date(y, m, d)`
 * does.
 */
module Calendar {

  const MsPerDay: int := 86400000

  datatype Civil = Civil(year: int, month: int, day: int, msOfDay: int)

  predicate IsLeap(y: int)
  {
    (y % 4 == 0 && y % 100 != 0) || y % 400 == 0
  }

  function YearLength(y: int): (n: int)
    ensures n == 365 || n == 366
  {
    if IsLeap(y) then 366 else 365
  }

  /** Days in month `m` (0 = January) of year `y`. */
  function MonthLength(y: int, m: int): (n: int)
    requires 0 <= m < 12
    ensures 28 <= n <= 31
    ensures m == 1 ==> (n == 29 <==> IsLeap(y))
  {
    if m == 1 then (if IsLeap(y) then 29 else 28)
    else if m == 3 || m == 5 || m == 8 || m == 10 then 30
    else 31
  }

  /** Days of year `y` before the first of month `m`; `m == 12` gives the whole year. */
  function DaysBeforeMonth(y: int, m: int): (n: int)
    requires 0 <= m <= 12
    ensures 28 * m <= n <= 31 * m
  {
    if m == 0 then 0 else DaysBeforeMonth(y, m - 1) + MonthLength(y, m - 1)
  }

  lemma WholeYear(y: int)
    ensures DaysBeforeMonth(y, 12) == YearLength(y)
  {
    var feb := MonthLength(y, 1);
    assert DaysBeforeMonth(y, 2) == 31 + feb;
    assert DaysBeforeMonth(y, 4) == 92 + feb;
    assert DaysBeforeMonth(y, 6) == 153 + feb;
    assert DaysBeforeMonth(y, 8) == 215 + feb;
    assert DaysBeforeMonth(y, 10) == 276 + feb;
    assert DaysBeforeMonth(y, 12) == 337 + feb;
  }

  lemma {:induction false} DaysBeforeMonthMonotone(y: int, m: int, m': int)
    requires 0 <= m <= m' <= 12
    ensures DaysBeforeMonth(y, m) <= DaysBeforeMonth(y, m')
    decreases m' - m
  {
    if m < m' {
      DaysBeforeMonthMonotone(y, m, m' - 1);
    }
  }

  /** Day number of 1 January of year `y`, counted from 1 January 1970. */
  function DaysBeforeYear(y: int): int
    decreases if y >= 1970 then y - 1970 else 1970 - y
  {
    if y == 1970 then 0
    else if y > 1970 then DaysBeforeYear(y - 1) + YearLength(y - 1)
    else DaysBeforeYear(y + 1) - YearLength(y)
  }

  lemma {:induction false} NextYear(y: int)
    ensures DaysBeforeYear(y + 1) == DaysBeforeYear(y) + YearLength(y)
  {
  }

  /**
   * Day number of `new Date(y, m, d)`: the month is first carried into the year
   * (month -1 is December of the previous year), the day is then counted on linearly.
   */
  function DayNumber(y: int, m: int, d: int): int
  {
    var y' := y + m / 12;
    var m' := m % 12;
    DaysBeforeYear(y') + DaysBeforeMonth(y', m') + d - 1
  }

  predicate ValidCivil(c: Civil)
  {
    0 <= c.month < 12 && 1 <= c.day <= MonthLength(c.year, c.month) && 0 <= c.msOfDay < MsPerDay
  }

  function DayOf(c: Civil): int { DayNumber(c.year, c.month, c.day) }

  /** Milliseconds since the local epoch. */
  function Instant(c: Civil): int { DayOf(c) * MsPerDay + c.msOfDay }

  /** Midnight starting day number `n`. */
  function Midnight(n: int): int { n * MsPerDay }

  /** `getDay()`: 0 is Sunday; 1 January 1970 was a Thursday. */
  function Weekday(c: Civil): (w: int)
    ensures 0 <= w < 7
  {
    (DayOf(c) + 4) % 7
  }

  /** Instants are ordered as the day they fall on, then as the time of day. */
  lemma InstantWithinDay(c: Civil)
    requires ValidCivil(c)
    ensures Midnight(DayOf(c)) <= Instant(c) < Midnight(DayOf(c) + 1)
  {
  }

  /** A later month of the same year starts on a later (or the same) day. */
  lemma {:induction false} DayNumberMonotoneInMonth(y: int, m: int, m': int, d: int)
    requires 0 <= m <= m' < 12
    ensures DayNumber(y, m, d) <= DayNumber(y, m', d)
  {
    assert m / 12 == 0 && m % 12 == m;
    assert m' / 12 == 0 && m' % 12 == m';
    DaysBeforeMonthMonotone(y, m, m');
  }

  /** The first of the previous month falls on or before the first of this month. */
  lemma {:induction false} PreviousMonthStart(y: int, m: int)
    requires 0 <= m < 12
    ensures DayNumber(y, m - 1, 1) < DayNumber(y, m, 1)
  {
    assert m / 12 == 0 && m % 12 == m;
    if m == 0 {
      assert (m - 1) / 12 == -1 && (m - 1) % 12 == 11;
      NextYear(y - 1);
      WholeYear(y - 1);
    } else {
      assert (m - 1) / 12 == 0 && (m - 1) % 12 == m - 1;
    }
  }
}
