/** Day numbers and civil dates of ECMA-262, section 21.4.1, in UTC: a day number counts days from 1 January 1970,
    months count from 0 and days of the month from 1. */
module Calendar {
  import opened Division

  const MS_PER_DAY := 86400000
  const MS_PER_HOUR := 3600000
  const MS_PER_MINUTE := 60000
  const MS_PER_SECOND := 1000
  /** The largest magnitude of a time value. */
  const MAX_TIME := 8640000000000000

  function DayFromYear(y: int): int {
    365 * (y - 1970) + (y - 1969) / 4 - (y - 1901) / 100 + (y - 1601) / 400
  }

  predicate IsLeap(y: int) { y % 4 == 0 && (y % 100 != 0 || y % 400 == 0) }

  function MonthOffset(m: int, leap: bool): int
    requires 0 <= m <= 12
  {
    var extra := if leap && m >= 2 then 1 else 0;
    extra + [0, 31, 59, 90, 120, 151, 181, 212, 243, 273, 304, 334, 365][m]
  }

  function DaysInMonth(y: int, m: int): int
    requires 0 <= m < 12
  {
    MonthOffset(m + 1, IsLeap(y)) - MonthOffset(m, IsLeap(y))
  }

  /** The first day of a month counted on from year 0; any integer is such a month. */
  function FirstDay(month: int): int { DayFromYear(month / 12) + MonthOffset(month % 12, IsLeap(month / 12)) }

  /** MakeDay: months past the end of the year and days past the end of the month carry over. */
  function MakeDay(y: int, m: int, date: int): int { FirstDay(12 * y + m) + date - 1 }

  function YearFromDay(day: int): int {
    var y := 1970 + day * 400 / 146097;
    if day < DayFromYear(y) then y - 1 else if DayFromYear(y + 1) <= day then y + 1 else y
  }

  function MonthInYear(k: int, leap: bool, m: int): int
    requires 0 <= m < 12
    decreases 12 - m
  {
    if m == 11 || k < MonthOffset(m + 1, leap) then m else MonthInYear(k, leap, m + 1)
  }

  function MonthFromDay(day: int): int {
    var y := YearFromDay(day);
    MonthInYear(day - DayFromYear(y), IsLeap(y), 0)
  }

  function DateFromDay(day: int): int { day - FirstDay(12 * YearFromDay(day) + MonthFromDay(day)) + 1 }

  // ---- the calendar and the day numbers are inverse ----

  /** A year has 366 days exactly when it is divisible by 4 and, if by 100, by 400. */
  lemma YearLength(y: int)
    ensures DayFromYear(y + 1) - DayFromYear(y) == if IsLeap(y) then 366 else 365
  {
    CarriesAt(y, 4);
    CarriesAt(y - 1900, 100);
    CarriesAt(y - 1600, 400);
    assert (y - 1968) / 4 - (y - 1969) / 4 == if y % 4 == 0 then 1 else 0;
    assert (y - 1900) / 100 - (y - 1901) / 100 == if y % 100 == 0 then 1 else 0;
    assert (y - 1600) / 400 - (y - 1601) / 400 == if y % 400 == 0 then 1 else 0;
  }

  lemma CarriesAt(x: int, n: int)
    requires n > 1
    ensures x / n - (x - 1) / n == if x % n == 0 then 1 else 0
  {
    var q, r := (x - 1) / n, (x - 1) % n;
    assert x - 1 == n * q + r;
    if r == n - 1 {
      assert x == n * (q + 1);
      assert x / n == q + 1 && x % n == 0 by { Quotient(x, n, q + 1, 0); }
    } else {
      Quotient(x, n, q, r + 1);
    }
  }

  /** Every day lies in the year found for it. */
  lemma YearHolds(day: int)
    ensures DayFromYear(YearFromDay(day)) <= day < DayFromYear(YearFromDay(day) + 1)
  {
    var y := 1970 + day * 400 / 146097;
    YearLength(y - 1);
    YearLength(y);
    YearLength(y + 1);
  }

  lemma {:induction false} YearsGrow(y: int, z: int)
    requires y <= z
    ensures DayFromYear(z) >= DayFromYear(y) + 365 * (z - y)
    decreases z - y
  {
    if y < z {
      YearsGrow(y, z - 1);
      YearLength(z - 1);
    }
  }

  lemma {:induction false} MonthHolds(k: int, leap: bool, m: int)
    requires 0 <= m < 12 && MonthOffset(m, leap) <= k < (if leap then 366 else 365)
    ensures var r := MonthInYear(k, leap, m); m <= r < 12 && MonthOffset(r, leap) <= k < MonthOffset(r + 1, leap)
    decreases 12 - m
  {
    if m != 11 && k >= MonthOffset(m + 1, leap) {
      MonthHolds(k, leap, m + 1);
    }
  }

  lemma FirstDayOf(y: int, m: int)
    requires 0 <= m < 12
    ensures FirstDay(12 * y + m) == DayFromYear(y) + MonthOffset(m, IsLeap(y))
  {
    Quotient(12 * y + m, 12, y, m);
  }

  /** Reading a day number as a date and making the day of that date gives the day back. */
  lemma DayIsItsDate(day: int)
    ensures 0 <= MonthFromDay(day) < 12
    ensures 1 <= DateFromDay(day) <= DaysInMonth(YearFromDay(day), MonthFromDay(day))
    ensures MakeDay(YearFromDay(day), MonthFromDay(day), DateFromDay(day)) == day
  {
    var y := YearFromDay(day);
    YearHolds(day);
    YearLength(y);
    hide DayFromYear, YearFromDay, IsLeap, FirstDay, MonthInYear;
    assert MonthOffset(0, IsLeap(y)) == 0;
    MonthHolds(day - DayFromYear(y), IsLeap(y), 0);
    hide MonthOffset;
    FirstDayOf(y, MonthFromDay(day));
  }

  /** Making the day of a date of the calendar and reading it gives the date back. */
  lemma DateIsItsDay(y: int, m: int, date: int)
    requires 0 <= m < 12 && 1 <= date <= DaysInMonth(y, m)
    ensures var day := MakeDay(y, m, date);
      YearFromDay(day) == y && MonthFromDay(day) == m && DateFromDay(day) == date
  {
    hide DayFromYear, YearFromDay, IsLeap, FirstDay, MonthInYear;
    FirstDayOf(y, m);
    var day := MakeDay(y, m, date);
    YearLength(y);
    assert DayFromYear(y) <= day < DayFromYear(y + 1);
    YearHolds(day);
    YearUnique(day, y, YearFromDay(day));
    MonthHolds(day - DayFromYear(y), IsLeap(y), 0);
    MonthUnique(day - DayFromYear(y), IsLeap(y), m, MonthFromDay(day));
  }

  lemma YearUnique(day: int, y: int, z: int)
    requires DayFromYear(y) <= day < DayFromYear(y + 1) && DayFromYear(z) <= day < DayFromYear(z + 1)
    ensures y == z
  {
    hide DayFromYear;
    if z < y { YearsGrow(z + 1, y); }
    if y < z { YearsGrow(y + 1, z); }
  }

  lemma MonthUnique(k: int, leap: bool, m: int, n: int)
    requires 0 <= m < 12 && 0 <= n < 12
    requires MonthOffset(m, leap) <= k < MonthOffset(m + 1, leap)
      && MonthOffset(n, leap) <= k < MonthOffset(n + 1, leap)
    ensures m == n
  {
  }

  // ---- months ----

  lemma MonthLength(month: int)
    ensures 28 <= FirstDay(month + 1) - FirstDay(month) <= 31
  {
    var y, m := month / 12, month % 12;
    YearLength(y);
    if m == 11 {
      Quotient(month + 1, 12, y + 1, 0);
    } else {
      Quotient(month + 1, 12, y, m + 1);
    }
  }

  lemma {:induction false} MonthsGrow(month: int, k: nat)
    ensures 28 * k <= FirstDay(month + k) - FirstDay(month) <= 31 * k
  {
    hide FirstDay;
    if k > 0 {
      MonthsGrow(month, k - 1);
      MonthLength(month + k - 1);
      assert month + k - 1 + 1 == month + k;
    }
  }
}
