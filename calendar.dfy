/**
 * The proleptic Gregorian calendar as Python's datetime uses it: which
 * (year, month, day, hour, minute) values construct without ValueError, and
 * how many days lie between two dates.
 */
module Calendar {
  predicate IsLeapYear(y: int)
  {
    y % 4 == 0 && (y % 100 != 0 || y % 400 == 0)
  }

  function DaysInMonth(y: int, m: int): (n: int)
    requires 1 <= m <= 12
    ensures 28 <= n <= 31
    ensures n == 29 <==> m == 2 && IsLeapYear(y)
  {
    if m == 2 then (if IsLeapYear(y) then 29 else 28)
    else if m == 4 || m == 6 || m == 9 || m == 11 then 30
    else 31
  }

  /** The range datetime accepts: years 1..9999 and real days of the month. */
  predicate ValidDate(y: int, m: int, d: int)
  {
    1 <= y <= 9999 && 1 <= m <= 12 && 1 <= d <= DaysInMonth(y, m)
  }

  /** A date `datetime` accepts and a time of day; its minute of the day
      then lies in [0, 1440). */
  predicate ValidDateTime(y: int, m: int, d: int, hour: int, minute: int)
    ensures ValidDateTime(y, m, d, hour, minute) ==> 0 <= hour * 60 + minute < 1440 && 1 <= d <= 31
  {
    ValidDate(y, m, d) && 0 <= hour < 24 && 0 <= minute < 60
  }

  function DaysBeforeYear(y: int): int
  {
    var p := y - 1;
    365 * p + p / 4 - p / 100 + p / 400
  }

  function DaysBeforeMonth(y: int, m: int): int
    requires 1 <= m <= 12
  {
    [0, 31, 59, 90, 120, 151, 181, 212, 243, 273, 304, 334][m - 1] + (if m > 2 && IsLeapYear(y) then 1 else 0)
  }

  /** date.toordinal(): 0001-01-01 is day 1. */
  function Ordinal(y: int, m: int, d: int): int
    requires 1 <= m <= 12
  {
    DaysBeforeYear(y) + DaysBeforeMonth(y, m) + d
  }

  /** (date(y, m, d) - date(1900, 1, 1)).days */
  function DaysSince1900(y: int, m: int, d: int): (n: int)
    requires 1 <= m <= 12
    ensures y == 1900 && m == 1 ==> n == d - 1
  {
    Ordinal(y, m, d) - Ordinal(1900, 1, 1)
  }

  /** One more multiple of k is reached at y exactly when k divides y. */
  lemma DivStep(y: int, k: int)
    requires k == 4 || k == 100 || k == 400
    ensures y / k - (y - 1) / k == if y % k == 0 then 1 else 0
  {
    var q, r := y / k, y % k;
    assert y == k * q + r;
    if r == 0 {
      assert y - 1 == k * (q - 1) + (k - 1);
    } else {
      assert y - 1 == k * q + (r - 1);
    }
  }

  lemma DivisibilityChain(y: int)
    ensures y % 400 == 0 ==> y % 100 == 0
    ensures y % 100 == 0 ==> y % 4 == 0
  {
    if y % 400 == 0 {
      MultipleOf(y, 4 * (y / 400), 100);
    }
    if y % 100 == 0 {
      MultipleOf(y, 25 * (y / 100), 4);
    }
  }

  lemma MultipleOf(y: int, q: int, k: int)
    requires (k == 4 || k == 100) && y == k * q
    ensures y % k == 0
  {
    if k == 4 {
      assert y == 4 * q;
    } else {
      assert y == 100 * q;
    }
  }

  /** A year has 366 days when it is a leap year and 365 otherwise. */
  lemma YearLength(y: int)
    ensures DaysBeforeYear(y + 1) - DaysBeforeYear(y) == if IsLeapYear(y) then 366 else 365
  {
    DivStep(y, 4);
    DivStep(y, 100);
    DivStep(y, 400);
    DivisibilityChain(y);
    var p := y - 1;
    assert DaysBeforeYear(y + 1) - DaysBeforeYear(y) == 365 + (y / 4 - p / 4) - (y / 100 - p / 100) + (y / 400 - p / 400);
  }

  /** Consecutive months are DaysInMonth apart, and December closes the year. */
  lemma MonthLength(y: int, m: int)
    requires 1 <= m <= 12
    ensures m < 12 ==> DaysBeforeMonth(y, m + 1) == DaysBeforeMonth(y, m) + DaysInMonth(y, m)
    ensures m == 12 ==> DaysBeforeMonth(y, m) + DaysInMonth(y, m) == if IsLeapYear(y) then 366 else 365
  {
  }

  /** The calendar date following (y, m, d). */
  function NextDate(y: int, m: int, d: int): (int, int, int)
    requires ValidDate(y, m, d)
  {
    if d < DaysInMonth(y, m) then (y, m, d + 1)
    else if m < 12 then (y, m + 1, 1)
    else (y + 1, 1, 1)
  }

  /** The following date is a date, and it is exactly one day later. */
  lemma NextDateIsNextDay(y: int, m: int, d: int)
    requires ValidDate(y, m, d) && (y, m, d) != (9999, 12, 31)
    ensures var (y', m', d') := NextDate(y, m, d);
      ValidDate(y', m', d') && Ordinal(y', m', d') == Ordinal(y, m, d) + 1
  {
    MonthLength(y, m);
    if d == DaysInMonth(y, m) && m == 12 {
      YearLength(y);
    }
  }

  /** The epoch is day 0, and 1990-01-01 is day 32872. */
  lemma DayCountExamples()
    ensures DaysSince1900(1900, 1, 1) == 0
    ensures DaysSince1900(1990, 1, 1) == 32872
  {
  }
}
