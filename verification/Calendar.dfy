/**
 The proleptic Gregorian calendar behind `year_month_day` and `sys_days`: day numbers
 counted from 1970-01-01, the date of a day number, and the order the two agree on.
 */
module Calendar {

  datatype Date = Date(year: int, month: int, day: int)

  /** Days from 0001-01-01 to 1970-01-01. */
  const EPOCH := 719162

  predicate IsLeap(year: int) {
    year % 4 == 0 && (year % 100 != 0 || year % 400 == 0)
  }

  function DaysInMonth(year: int, month: int): (days: int)
    requires 1 <= month <= 12
    ensures 28 <= days <= 31
  {
    if month == 2 then (if IsLeap(year) then 29 else 28)
    else if month in {4, 6, 9, 11} then 30
    else 31
  }

  predicate Ok(date: Date) {
    1 <= date.month <= 12 && 1 <= date.day <= DaysInMonth(date.year, date.month)
  }

  function YearLength(year: int): int {
    if IsLeap(year) then 366 else 365
  }

  /** Days from 0001-01-01 to the first day of `year`. */
  function DaysBeforeYear(year: int): int {
    var past := year - 1;
    365 * past + past / 4 - past / 100 + past / 400
  }

  function DaysBeforeMonth(year: int, month: int): int
    requires 1 <= month <= 12
  {
    if month == 1 then 0 else DaysBeforeMonth(year, month - 1) + DaysInMonth(year, month - 1)
  }

  /** The day number of a date: `sys_days{date}` counted in days. */
  function DayNumber(date: Date): int
    requires Ok(date)
  {
    DaysBeforeYear(date.year) + DaysBeforeMonth(date.year, date.month) + date.day - 1 - EPOCH
  }

  /** The date one day later, by the rules of the calendar alone. */
  function NextDay(date: Date): Date
    requires Ok(date)
  {
    if date.day < DaysInMonth(date.year, date.month) then date.(day := date.day + 1)
    else if date.month < 12 then Date(date.year, date.month + 1, 1)
    else Date(date.year + 1, 1, 1)
  }

  predicate DateLess(a: Date, b: Date) {
    a.year < b.year || (a.year == b.year && (a.month < b.month || (a.month == b.month && a.day < b.day)))
  }

  /** Moving one year on moves the count of multiples of `cycle` on exactly when the year is one. */
  lemma LeapCount(year: int, cycle: int)
    requires cycle in {4, 100, 400}
    ensures year / cycle == (year - 1) / cycle + if year % cycle == 0 then 1 else 0
  {
    var quotient, rest := (year - 1) / cycle, (year - 1) % cycle;
    if cycle == 4 {
      assert year == 4 * quotient + rest + 1;
    } else if cycle == 100 {
      assert year == 100 * quotient + rest + 1;
    } else {
      assert year == 400 * quotient + rest + 1;
    }
  }

  lemma EraStartsCentury(year: int)
    requires year % 400 == 0
    ensures year % 100 == 0
  {
    var eras := year / 400;
    assert year == 100 * (4 * eras);
  }

  lemma CenturyStartsLeapCycle(year: int)
    requires year % 100 == 0
    ensures year % 4 == 0
  {
    var centuries := year / 100;
    assert year == 4 * (25 * centuries);
  }

  lemma YearStep(year: int)
    ensures DaysBeforeYear(year + 1) == DaysBeforeYear(year) + YearLength(year)
  {
    LeapCount(year, 4);
    LeapCount(year, 100);
    LeapCount(year, 400);
    if year % 400 == 0 { EraStartsCentury(year); }
    if year % 100 == 0 { CenturyStartsLeapCycle(year); }
  }

  lemma {:induction false} YearsMonotone(a: int, b: int)
    requires a < b
    ensures DaysBeforeYear(a) + YearLength(a) <= DaysBeforeYear(b)
    decreases b - a
  {
    YearStep(b - 1);
    if a < b - 1 {
      YearsMonotone(a, b - 1);
    }
  }

  lemma {:induction false} MonthsMonotone(year: int, a: int, b: int)
    requires 1 <= a < b <= 12
    ensures DaysBeforeMonth(year, a) + DaysInMonth(year, a) <= DaysBeforeMonth(year, b)
    decreases b - a
  {
    if a < b - 1 {
      MonthsMonotone(year, a, b - 1);
    }
  }

  lemma MonthsFillYear(year: int)
    ensures DaysBeforeMonth(year, 12) + 31 == YearLength(year)
  {
    assert DaysBeforeMonth(year, 1) == 0;
    assert DaysBeforeMonth(year, 2) == 31;
    assert DaysBeforeMonth(year, 3) == 31 + DaysInMonth(year, 2);
    assert DaysBeforeMonth(year, 4) == 62 + DaysInMonth(year, 2);
    assert DaysBeforeMonth(year, 6) == DaysBeforeMonth(year, 5) + 31;
    assert DaysBeforeMonth(year, 8) == DaysBeforeMonth(year, 7) + 31;
    assert DaysBeforeMonth(year, 10) == DaysBeforeMonth(year, 9) + 30;
  }

  /** The lengths of the twelve months, and the years with a February of 29 days. */
  lemma MonthLengths(year: int, month: int)
    requires 1 <= month <= 12
    ensures DaysInMonth(year, month) ==
      if month == 2 then (if (year % 4 == 0 && year % 100 != 0) || year % 400 == 0 then 29 else 28)
      else [31, 28, 31, 30, 31, 30, 31, 31, 30, 31, 30, 31][month - 1]
  {
    if year % 400 == 0 {
      EraStartsCentury(year);
      CenturyStartsLeapCycle(year);
    }
  }

  lemma DaysBeforeMonthExact(year: int, month: int)
    requires 1 <= month <= 12
    ensures DaysBeforeMonth(year, month) ==
      if month == 1 then 0 else if month == 2 then 31
      else 59 + (if IsLeap(year) then 1 else 0) + (153 * (month - 3) + 2) / 5
  {
    hide IsLeap;
    if month > 1 { DaysBeforeMonthExact(year, month - 1); }
  }

  /** The day number of a date in closed form. */
  lemma DayNumberExact(date: Date)
    requires Ok(date)
    ensures var y, leap := date.year - 1,
          if (date.year % 4 == 0 && date.year % 100 != 0) || date.year % 400 == 0 then 1 else 0;
      DayNumber(date) == 365 * y + y / 4 - y / 100 + y / 400 - 719162 + date.day - 1
                         + (if date.month == 1 then 0 else if date.month == 2 then 31
                            else 59 + leap + (153 * (date.month - 3) + 2) / 5)
  {
    DaysBeforeMonthExact(date.year, date.month);
    MonthLengths(date.year, 2);
  }

  lemma DayWithinYear(date: Date)
    requires Ok(date)
    ensures 0 <= DaysBeforeMonth(date.year, date.month) + date.day - 1 < YearLength(date.year)
  {
    MonthsFillYear(date.year);
    if date.month > 1 { MonthsMonotone(date.year, 1, date.month); }
    if date.month < 12 { MonthsMonotone(date.year, date.month, 12); }
  }

  /** Day numbers and calendar dates are ordered alike. */
  lemma DayOrder(a: Date, b: Date)
    requires Ok(a) && Ok(b)
    ensures DayNumber(a) < DayNumber(b) <==> DateLess(a, b)
  {
    OrderForward(a, b);
    OrderForward(b, a);
  }

  lemma OrderForward(a: Date, b: Date)
    requires Ok(a) && Ok(b)
    ensures DateLess(a, b) ==> DayNumber(a) < DayNumber(b)
  {
    DayWithinYear(a);
    DayWithinYear(b);
    if a.year < b.year {
      YearsMonotone(a.year, b.year);
    } else if a.year == b.year && a.month < b.month {
      MonthsMonotone(a.year, a.month, b.month);
    }
  }

  /** Day zero is the Unix epoch and each calendar step adds one: the day numbers are the calendar's. */
  lemma DayNumbersFollowCalendar(date: Date)
    requires Ok(date)
    ensures DayNumber(Date(1970, 1, 1)) == 0
    ensures Ok(NextDay(date)) && DayNumber(NextDay(date)) == DayNumber(date) + 1
  {
    if date.month == 12 && date.day == 31 {
      MonthsFillYear(date.year);
      YearStep(date.year);
    }
  }

  function SearchYear(day: int, year: int): (found: int)
    ensures DaysBeforeYear(found) <= day < DaysBeforeYear(found + 1)
    decreases if day < DaysBeforeYear(year) then DaysBeforeYear(year) - day
              else if day >= DaysBeforeYear(year + 1) then day - DaysBeforeYear(year + 1) + 1
              else 0
  {
    hide DaysBeforeYear, IsLeap;
    YearStep(year);
    YearStep(year - 1);
    YearStep(year + 1);
    if day < DaysBeforeYear(year) then SearchYear(day, year - 1)
    else if day >= DaysBeforeYear(year + 1) then SearchYear(day, year + 1)
    else year
  }

  function SearchMonth(year: int, rest: int, month: int): (found: int)
    requires 1 <= month <= 12
    requires DaysBeforeMonth(year, month) <= rest < YearLength(year)
    ensures 1 <= found <= 12
    ensures DaysBeforeMonth(year, found) <= rest < DaysBeforeMonth(year, found) + DaysInMonth(year, found)
    decreases 12 - month
  {
    MonthsFillYear(year);
    if rest < DaysBeforeMonth(year, month) + DaysInMonth(year, month) then month
    else SearchMonth(year, rest, month + 1)
  }

  /** The date of a day number: `year_month_day{days}`. */
  function DateOf(number: int): (date: Date)
    ensures Ok(date) && DayNumber(date) == number
  {
    var day := number + EPOCH;
    var year := SearchYear(day, 1970);
    YearStep(year);
    var rest := day - DaysBeforeYear(year);
    var month := SearchMonth(year, rest, 1);
    Date(year, month, rest - DaysBeforeMonth(year, month) + 1)
  }

  lemma DateOfDayNumber(date: Date)
    requires Ok(date)
    ensures DateOf(DayNumber(date)) == date
  {
    DayOrder(date, DateOf(DayNumber(date)));
    DayOrder(DateOf(DayNumber(date)), date);
  }
}
