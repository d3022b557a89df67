/** The proleptic Gregorian calendar that Python's `datetime` uses, counted
    in days and seconds from the Unix epoch 1970-01-01T00:00:00. */
module Calendar {

  const SecondsPerDay := 86400

  predicate IsLeapYear(y: int) {
    y % 4 == 0 && (y % 100 != 0 || y % 400 == 0)
  }

  function DaysInYear(y: int): int {
    if IsLeapYear(y) then 366 else 365
  }

  /** Days in the months of year `y` before month `m`; `m == 13` gives the
      whole year. */
  function DaysBeforeMonth(y: int, m: int): (d: int)
    requires 1 <= m <= 13
    ensures m == 1 ==> d == 0
    ensures m == 13 ==> d == DaysInYear(y)
  {
    var table := [0, 31, 59, 90, 120, 151, 181, 212, 243, 273, 304, 334, 365];
    table[m - 1] + (if m > 2 && IsLeapYear(y) then 1 else 0)
  }

  function DaysInMonth(y: int, m: int): int
    requires 1 <= m <= 12
  {
    DaysBeforeMonth(y, m + 1) - DaysBeforeMonth(y, m)
  }

  datatype Date = Date(year: int, month: int, day: int)

  predicate ValidDate(d: Date) {
    1 <= d.month <= 12 && 1 <= d.day <= DaysInMonth(d.year, d.month)
  }

  /** Days from 1970-01-01 to January 1 of `y` (negative before 1970). */
  function DaysBeforeYear(y: int): int
    decreases if y < 1970 then 1970 - y else y - 1970
  {
    if y == 1970 then 0
    else if y > 1970 then DaysBeforeYear(y - 1) + DaysInYear(y - 1)
    else DaysBeforeYear(y + 1) - DaysInYear(y)
  }

  /** The day number of a date: days since 1970-01-01. */
  function DayNumber(d: Date): int
    requires ValidDate(d)
  {
    DaysBeforeYear(d.year) + DaysBeforeMonth(d.year, d.month) + d.day - 1
  }

  lemma DaysBeforeYearStep(y: int)
    ensures DaysBeforeYear(y + 1) == DaysBeforeYear(y) + DaysInYear(y)
  {
  }

  /** The year holding day `z` counted from January 1 of `y`, with the day's
      offset inside that year. */
  function YearOf(y: int, z: int): (r: (int, int))
    ensures 0 <= r.1 < DaysInYear(r.0)
    ensures DaysBeforeYear(r.0) + r.1 == DaysBeforeYear(y) + z
    decreases if z < 0 then 1 else 0, if z < 0 then -z else z
  {
    DaysBeforeYearStep(y - 1);
    DaysBeforeYearStep(y);
    if z < 0 then YearOf(y - 1, z + DaysInYear(y - 1))
    else if z >= DaysInYear(y) then YearOf(y + 1, z - DaysInYear(y))
    else (y, z)
  }

  /** The month, from `m` on, holding day `doy` of year `y`, and the day of
      the month. */
  function MonthFrom(y: int, doy: int, m: int): (r: (int, int))
    requires 1 <= m <= 12
    requires DaysBeforeMonth(y, m) <= doy < DaysInYear(y)
    ensures ValidDate(Date(y, r.0, r.1))
    ensures DaysBeforeMonth(y, r.0) + r.1 - 1 == doy
    decreases 12 - m
  {
    if m == 12 || doy < DaysBeforeMonth(y, m + 1) then (m, doy - DaysBeforeMonth(y, m) + 1)
    else MonthFrom(y, doy, m + 1)
  }

  /** The calendar date of day number `z`. */
  function DateOfDay(z: int): (d: Date)
    ensures ValidDate(d) && DayNumber(d) == z
  {
    var (y, doy) := YearOf(1970, z);
    var (m, day) := MonthFrom(y, doy, 1);
    Date(y, m, day)
  }

  lemma {:induction false} DaysBeforeYearMonotone(a: int, b: int)
    requires a < b
    ensures DaysBeforeYear(a) + DaysInYear(a) <= DaysBeforeYear(b)
    decreases b - a
  {
    DaysBeforeYearStep(a);
    if a + 1 < b {
      DaysBeforeYearMonotone(a + 1, b);
    }
  }

  lemma DaysBeforeMonthMonotone(y: int, a: int, b: int)
    requires 1 <= a < b <= 12
    ensures DaysBeforeMonth(y, a + 1) <= DaysBeforeMonth(y, b)
  {
  }

  /** Distinct valid dates have distinct day numbers, so with DateOfDay the
      day number is a bijection between valid dates and integers. */
  lemma DayNumberInjective(d1: Date, d2: Date)
    requires ValidDate(d1) && ValidDate(d2)
    requires DayNumber(d1) == DayNumber(d2)
    ensures d1 == d2
  {
    if d1.year < d2.year {
      DaysBeforeYearMonotone(d1.year, d2.year);
    } else if d2.year < d1.year {
      DaysBeforeYearMonotone(d2.year, d1.year);
    } else if d1.month < d2.month {
      DaysBeforeMonthMonotone(d1.year, d1.month, d2.month);
    } else if d2.month < d1.month {
      DaysBeforeMonthMonotone(d1.year, d2.month, d1.month);
    }
  }

  lemma DateOfDayNumber(d: Date)
    requires ValidDate(d)
    ensures DateOfDay(DayNumber(d)) == d
  {
    DayNumberInjective(DateOfDay(DayNumber(d)), d);
  }

  /** A wall-clock reading with whole seconds. */
  datatype DateTime = DateTime(date: Date, hour: int, minute: int, second: int)

  predicate ValidDateTime(t: DateTime) {
    ValidDate(t.date) && 0 <= t.hour < 24 && 0 <= t.minute < 60 && 0 <= t.second < 60
  }

  /** Seconds since the epoch that a wall-clock reading denotes. */
  function SecondsOf(t: DateTime): int
    requires ValidDateTime(t)
  {
    DayNumber(t.date) * SecondsPerDay + t.hour * 3600 + t.minute * 60 + t.second
  }

  /** The wall-clock reading `s` seconds after the epoch (Python's
      `datetime` rounds toward the past for instants before 1970). */
  function DateTimeOf(s: int): (t: DateTime)
    ensures ValidDateTime(t) && SecondsOf(t) == s
  {
    var days, rest := s / SecondsPerDay, s % SecondsPerDay;
    DateTime(DateOfDay(days), rest / 3600, rest % 3600 / 60, rest % 60)
  }

  /** Distinct valid wall-clock readings denote distinct instants. */
  lemma SecondsOfInjective(t1: DateTime, t2: DateTime)
    requires ValidDateTime(t1) && ValidDateTime(t2)
    requires SecondsOf(t1) == SecondsOf(t2)
    ensures t1 == t2
  {
    var d1, d2 := DayNumber(t1.date), DayNumber(t2.date);
    var r1 := t1.hour * 3600 + t1.minute * 60 + t1.second;
    var r2 := t2.hour * 3600 + t2.minute * 60 + t2.second;
    assert d1 * SecondsPerDay + r1 == d2 * SecondsPerDay + r2;
    DayNumberInjective(t1.date, t2.date);
  }

  /** DateTimeOf reads back every valid wall-clock reading. */
  lemma DateTimeOfSeconds(t: DateTime)
    requires ValidDateTime(t)
    ensures DateTimeOf(SecondsOf(t)) == t
  {
    SecondsOfInjective(DateTimeOf(SecondsOf(t)), t);
  }
}
