/** The calendar part of a JavaScript `Date` in local time: the proleptic
    Gregorian year, the 0-based month (as `getMonth()` returns it) and the
    1-based day of the month (`getDate()`). A day number counts days from
    1970-01-01, the epoch of JavaScript time values, and is the reference
    against which the roll-over of `setDate` is proved. */
module JsDate {

  datatype CalendarDate = CalendarDate(fullYear: int, month: int, date: int)

  predicate IsLeapYear(y: int)
  {
    y % 4 == 0 && (y % 100 != 0 || y % 400 == 0)
  }

  function DaysInYear(y: int): nat
  {
    if IsLeapYear(y) then 366 else 365
  }

  /** Days in the 0-based month `m` of year `y`. */
  function DaysInMonth(y: int, m: int): (n: nat)
    requires 0 <= m < 12
    ensures 28 <= n <= 31
  {
    if m == 1 then (if IsLeapYear(y) then 29 else 28)
    else if m == 3 || m == 5 || m == 8 || m == 10 then 30
    else 31
  }

  predicate ValidDate(d: CalendarDate)
  {
    0 <= d.month < 12 && 1 <= d.date <= DaysInMonth(d.fullYear, d.month)
  }

  /** Days from 1970-01-01 to January 1st of year `y` (negative before 1970). */
  function DaysBeforeYear(y: int): int
    decreases if y < 1970 then 1970 - y else y - 1970
  {
    if y == 1970 then 0
    else if y > 1970 then DaysBeforeYear(y - 1) + DaysInYear(y - 1)
    else DaysBeforeYear(y + 1) - DaysInYear(y)
  }

  /** Days from January 1st of year `y` to the first day of 0-based month `m`. */
  function DaysBeforeMonth(y: int, m: int): nat
    requires 0 <= m <= 12
  {
    if m == 0 then 0 else DaysBeforeMonth(y, m - 1) + DaysInMonth(y, m - 1)
  }

  /** The day number of year/month/day-of-month, for any day-of-month value:
      day 0 before the first of the month, day 32 after the 31st, and so on. */
  function DayNumber(d: CalendarDate): int
    requires 0 <= d.month < 12
  {
    DaysBeforeYear(d.fullYear) + DaysBeforeMonth(d.fullYear, d.month) + d.date - 1
  }

  lemma MonthsMakeYear(y: int)
    ensures DaysBeforeMonth(y, 12) == DaysInYear(y)
  {
    assert DaysBeforeMonth(y, 1) == 31;
    assert DaysBeforeMonth(y, 2) == 59 + DaysInMonth(y, 1) - 28;
    assert DaysBeforeMonth(y, 3) == 90 + DaysInMonth(y, 1) - 28;
    assert DaysBeforeMonth(y, 4) == 120 + DaysInMonth(y, 1) - 28;
    assert DaysBeforeMonth(y, 5) == 151 + DaysInMonth(y, 1) - 28;
    assert DaysBeforeMonth(y, 6) == 181 + DaysInMonth(y, 1) - 28;
    assert DaysBeforeMonth(y, 7) == 212 + DaysInMonth(y, 1) - 28;
    assert DaysBeforeMonth(y, 8) == 243 + DaysInMonth(y, 1) - 28;
    assert DaysBeforeMonth(y, 9) == 273 + DaysInMonth(y, 1) - 28;
    assert DaysBeforeMonth(y, 10) == 304 + DaysInMonth(y, 1) - 28;
    assert DaysBeforeMonth(y, 11) == 334 + DaysInMonth(y, 1) - 28;
  }

  lemma {:induction false} NextYear(y: int)
    ensures DaysBeforeYear(y + 1) == DaysBeforeYear(y) + DaysInYear(y)
  {
    if y + 1 > 1970 {
      assert DaysBeforeYear(y + 1) == DaysBeforeYear(y) + DaysInYear(y);
    } else if y + 1 < 1970 {
      assert DaysBeforeYear(y) == DaysBeforeYear(y + 1) - DaysInYear(y);
    }
  }

  /** The date `setDate(dayOfMonth)` leaves in a Date that showed year `y` and
      month `m`: a day-of-month beyond the month's length moves forward into
      the following months and years, one below 1 moves back. */
  function RollOver(y: int, m: int, dayOfMonth: int): (r: CalendarDate)
    requires 0 <= m < 12
    ensures ValidDate(r)
    ensures DayNumber(r) == DayNumber(CalendarDate(y, m, dayOfMonth))
    decreases if dayOfMonth < 1 then 1 else 0, if dayOfMonth < 1 then -dayOfMonth else dayOfMonth
  {
    if dayOfMonth < 1 then
      if m == 0 then
        YearBefore(y, dayOfMonth);
        RollOver(y - 1, 11, dayOfMonth + DaysInMonth(y - 1, 11))
      else
        RollOver(y, m - 1, dayOfMonth + DaysInMonth(y, m - 1))
    else if dayOfMonth > DaysInMonth(y, m) then
      if m == 11 then
        YearAfter(y, dayOfMonth);
        RollOver(y + 1, 0, dayOfMonth - DaysInMonth(y, 11))
      else
        RollOver(y, m + 1, dayOfMonth - DaysInMonth(y, m))
    else
      CalendarDate(y, m, dayOfMonth)
  }

  /** Day `n` of January is day `n + 31` of the previous December. */
  lemma YearBefore(y: int, n: int)
    ensures DayNumber(CalendarDate(y - 1, 11, n + DaysInMonth(y - 1, 11))) == DayNumber(CalendarDate(y, 0, n))
  {
    MonthsMakeYear(y - 1);
    NextYear(y - 1);
  }

  /** Day `n` of December is day `n - 31` of the next January. */
  lemma YearAfter(y: int, n: int)
    ensures DayNumber(CalendarDate(y + 1, 0, n - DaysInMonth(y, 11))) == DayNumber(CalendarDate(y, 11, n))
  {
    MonthsMakeYear(y);
    NextYear(y);
  }

  /** The date `n` calendar days after `d` (before it when `n` is negative). */
  function AddDays(d: CalendarDate, n: int): (r: CalendarDate)
    requires ValidDate(d)
    ensures ValidDate(r)
    ensures DayNumber(r) == DayNumber(d) + n
  {
    RollOver(d.fullYear, d.month, d.date + n)
  }

  lemma {:induction false} YearsIncrease(y1: int, y2: int)
    requires y1 < y2
    ensures DaysBeforeYear(y1) + DaysInYear(y1) <= DaysBeforeYear(y2)
    decreases y2 - y1
  {
    NextYear(y1);
    if y1 + 1 < y2 {
      YearsIncrease(y1 + 1, y2);
    }
  }

  lemma {:induction false} MonthsIncrease(y: int, m1: int, m2: int)
    requires 0 <= m1 < m2 <= 12
    ensures DaysBeforeMonth(y, m1) + DaysInMonth(y, m1) <= DaysBeforeMonth(y, m2)
    decreases m2 - m1
  {
    if m1 + 1 < m2 {
      MonthsIncrease(y, m1 + 1, m2);
    }
  }

  lemma WithinYear(d: CalendarDate)
    requires ValidDate(d)
    ensures DaysBeforeYear(d.fullYear) <= DayNumber(d) < DaysBeforeYear(d.fullYear) + DaysInYear(d.fullYear)
  {
    MonthsMakeYear(d.fullYear);
    if d.month < 11 {
      MonthsIncrease(d.fullYear, d.month, 12);
    }
  }

  /** Distinct valid dates have distinct day numbers, so a day number names
      exactly one calendar date. */
  lemma DayNumberInjective(a: CalendarDate, b: CalendarDate)
    requires ValidDate(a) && ValidDate(b)
    requires DayNumber(a) == DayNumber(b)
    ensures a == b
  {
    WithinYear(a);
    WithinYear(b);
    if a.fullYear < b.fullYear {
      YearsIncrease(a.fullYear, b.fullYear);
    } else if b.fullYear < a.fullYear {
      YearsIncrease(b.fullYear, a.fullYear);
    }
    assert a.fullYear == b.fullYear;
    if a.month < b.month {
      MonthsIncrease(a.fullYear, a.month, b.month);
    } else if b.month < a.month {
      MonthsIncrease(a.fullYear, b.month, a.month);
    }
  }

  /** A mutable `Date` object, reduced to its local calendar fields. */
  class LocalDate {
    var fullYear: int
    var month: int
    var date: int

    ghost predicate Valid()
      reads this
    {
      ValidDate(CalendarDate(fullYear, month, date))
    }

    function Value(): CalendarDate
      reads this
    {
      CalendarDate(fullYear, month, date)
    }

    constructor (d: CalendarDate)
      requires ValidDate(d)
      ensures Valid() && Value() == d
    {
      fullYear, month, date := d.fullYear, d.month, d.date;
    }

    /** `setDate(dayOfMonth)`: keeps the year and month as the reference and
        moves to day `dayOfMonth` of that month, rolling over month and year
        boundaries in either direction. */
    method SetDate(dayOfMonth: int)
      requires Valid()
      modifies this
      ensures Valid()
      ensures DayNumber(Value()) == DayNumber(CalendarDate(old(fullYear), old(month), dayOfMonth))
      ensures Value() == RollOver(old(fullYear), old(month), dayOfMonth)
    {
      var r := RollOver(fullYear, month, dayOfMonth);
      fullYear, month, date := r.fullYear, r.month, r.date;
    }
  }
}
