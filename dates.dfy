/**
 * Calendar dates as the Python `datetime.date` type and the JavaScript
 * `Date` object use them: the proleptic Gregorian calendar, with the day
 * number Python's `date.toordinal()` gives (0001-01-01 is day 1). Date
 * differences (`(end - start).days`), stepping one day forward or back, the
 * first day of the next or previous month, and the weekday of a date are all
 * defined through that number.
 */
module Dates {

  datatype Date = Date(year: int, month: int, day: int)

  predicate IsLeap(y: int) {
    y % 4 == 0 && (y % 100 != 0 || y % 400 == 0)
  }

  function DaysInMonth(y: int, m: int): (n: int)
    requires 1 <= m <= 12
    ensures 28 <= n <= 31
    ensures n == 29 <==> m == 2 && IsLeap(y)
  {
    if m == 2 then (if IsLeap(y) then 29 else 28)
    else if m == 4 || m == 6 || m == 9 || m == 11 then 30
    else 31
  }

  function DaysInYear(y: int): int {
    if IsLeap(y) then 366 else 365
  }

  /** A real calendar date with a year from 1 on (Python's `date` range starts there). */
  predicate Valid(d: Date) {
    1 <= d.year && 1 <= d.month <= 12 && 1 <= d.day <= DaysInMonth(d.year, d.month)
  }

  /** A date as a `DateField` holds it: always a real calendar date. */
  type CalendarDate = d: Date | Valid(d) witness Date(1, 1, 1)

  /** Days in the years before `y`: the sum of the lengths of years 1 to `y - 1`. */
  function DaysBeforeYear(y: int): int
    requires y >= 1
    decreases y
  {
    if y == 1 then 0 else DaysBeforeYear(y - 1) + DaysInYear(y - 1)
  }

  /** The closed form Python's `_days_before_year` computes with no loop. */
  lemma {:induction false} DaysBeforeYearClosedForm(y: int)
    requires y >= 1
    ensures var p := y - 1; DaysBeforeYear(y) == p * 365 + p / 4 - p / 100 + p / 400
    decreases y
  {
    if y > 1 {
      DaysBeforeYearClosedForm(y - 1);
      var q := y - 2;
      DivStep(q, 4);
      DivStep(q, 100);
      DivStep(q, 400);
      CenturiesAreFourYears(y - 1);
    }
  }

  /** Days in the months of year `y` before month `m`. */
  function DaysBeforeMonth(y: int, m: int): int
    requires 1 <= m <= 12
  {
    var base := if m == 1 then 0 else if m == 2 then 31 else if m == 3 then 59
      else if m == 4 then 90 else if m == 5 then 120 else if m == 6 then 151
      else if m == 7 then 181 else if m == 8 then 212 else if m == 9 then 243
      else if m == 10 then 273 else if m == 11 then 304 else 334;
    base + (if m > 2 && IsLeap(y) then 1 else 0)
  }

  /** `date.toordinal()`. */
  function Ordinal(d: Date): int
    requires Valid(d)
  {
    DaysBeforeYear(d.year) + DaysBeforeMonth(d.year, d.month) + d.day
  }

  /** `(b - a).days` for two dates. */
  function DaysBetween(a: Date, b: Date): int
    requires Valid(a) && Valid(b)
  {
    Ordinal(b) - Ordinal(a)
  }

  /** Python compares dates field by field: year, then month, then day. */
  predicate Before(a: Date, b: Date) {
    a.year < b.year
    || (a.year == b.year && a.month < b.month)
    || (a.year == b.year && a.month == b.month && a.day < b.day)
  }

  lemma DivStep(p: int, k: int)
    requires p >= 0 && (k == 4 || k == 100 || k == 400)
    ensures (p + 1) / k - p / k == if (p + 1) % k == 0 then 1 else 0
  {
    if k == 4 {
      assert (p + 1) / 4 - p / 4 == if (p + 1) % 4 == 0 then 1 else 0;
    } else if k == 100 {
      assert (p + 1) / 100 - p / 100 == if (p + 1) % 100 == 0 then 1 else 0;
    } else {
      assert (p + 1) / 400 - p / 400 == if (p + 1) % 400 == 0 then 1 else 0;
    }
  }

  /** A year contributes `DaysInYear` days. */
  lemma YearStep(y: int)
    requires y >= 1
    ensures DaysBeforeYear(y + 1) == DaysBeforeYear(y) + DaysInYear(y)
  {
  }

  lemma CenturiesAreFourYears(y: int)
    ensures y % 100 == 0 ==> y % 4 == 0
    ensures y % 400 == 0 ==> y % 100 == 0
  {
    if y % 100 == 0 {
      var q := y / 100;
      assert y == 4 * (25 * q);
    }
    if y % 400 == 0 {
      var q := y / 400;
      assert y == 100 * (4 * q);
    }
  }

  /** A month contributes `DaysInMonth` days. */
  lemma MonthStep(y: int, m: int)
    requires 1 <= m < 12
    ensures DaysBeforeMonth(y, m + 1) == DaysBeforeMonth(y, m) + DaysInMonth(y, m)
  {
  }

  /** The days of year `y` fill the gap between consecutive `DaysBeforeYear` values. */
  lemma OrdinalWithinYear(d: Date)
    requires Valid(d)
    ensures DaysBeforeYear(d.year) < Ordinal(d) <= DaysBeforeYear(d.year + 1)
  {
    YearStep(d.year);
  }

  lemma {:induction false} DaysBeforeYearIncreasing(a: int, b: int)
    requires 1 <= a <= b
    ensures DaysBeforeYear(b) - DaysBeforeYear(a) >= 365 * (b - a)
    decreases b - a
  {
    if a < b {
      DaysBeforeYearIncreasing(a, b - 1);
      YearStep(b - 1);
    }
  }

  /** Field-by-field order and day-number order agree on valid dates. */
  lemma BeforeIffOrdinalLess(a: Date, b: Date)
    requires Valid(a) && Valid(b)
    ensures Before(a, b) <==> Ordinal(a) < Ordinal(b)
  {
    OrdinalWithinYear(a);
    OrdinalWithinYear(b);
    if a.year < b.year {
      DaysBeforeYearIncreasing(a.year + 1, b.year);
    } else if b.year < a.year {
      DaysBeforeYearIncreasing(b.year + 1, a.year);
    } else if a.month < b.month {
      MonthsIncreasing(a.year, a.month, b.month);
    } else if b.month < a.month {
      MonthsIncreasing(a.year, b.month, a.month);
    }
  }

  lemma {:induction false} MonthsIncreasing(y: int, m1: int, m2: int)
    requires 1 <= m1 < m2 <= 12
    ensures DaysBeforeMonth(y, m2) >= DaysBeforeMonth(y, m1) + DaysInMonth(y, m1)
    decreases m2 - m1
  {
    if m1 + 1 < m2 {
      MonthsIncreasing(y, m1 + 1, m2);
    }
  }

  /** Different valid dates have different day numbers. */
  lemma OrdinalInjective(a: Date, b: Date)
    requires Valid(a) && Valid(b) && Ordinal(a) == Ordinal(b)
    ensures a == b
  {
    BeforeIffOrdinalLess(a, b);
    BeforeIffOrdinalLess(b, a);
  }

  /** The date after `d` (`d + timedelta(days=1)`, `setDate(getDate() + 1)`). */
  function NextDay(d: Date): (r: Date)
    requires Valid(d)
    ensures Valid(r) && Ordinal(r) == Ordinal(d) + 1
  {
    if d.day < DaysInMonth(d.year, d.month) then Date(d.year, d.month, d.day + 1)
    else if d.month < 12 then (MonthStep(d.year, d.month); Date(d.year, d.month + 1, 1))
    else (YearStep(d.year); Date(d.year + 1, 1, 1))
  }

  /** The date before `d`; 0001-01-01 has none in Python's range. */
  function PrevDay(d: Date): (r: Date)
    requires Valid(d) && d != Date(1, 1, 1)
    ensures Valid(r) && Ordinal(r) + 1 == Ordinal(d)
  {
    if d.day > 1 then Date(d.year, d.month, d.day - 1)
    else if d.month > 1 then (MonthStep(d.year, d.month - 1); Date(d.year, d.month - 1, DaysInMonth(d.year, d.month - 1)))
    else (YearStep(d.year - 1); Date(d.year - 1, 12, 31))
  }

  /** Stepping forward then back, or back then forward, returns to the same date. */
  lemma NextPrevInverse(d: Date)
    requires Valid(d)
    ensures NextDay(d) != Date(1, 1, 1) && PrevDay(NextDay(d)) == d
    ensures d != Date(1, 1, 1) ==> NextDay(PrevDay(d)) == d
  {
    OrdinalWithinYear(Date(1, 1, 1));
    OrdinalInjective(PrevDay(NextDay(d)), d);
    if d != Date(1, 1, 1) {
      OrdinalInjective(NextDay(PrevDay(d)), d);
    }
  }

  /** Day of the week as JavaScript's `getDay()` numbers it: Sunday is 0 (day 1,
      0001-01-01 of the proleptic calendar, was a Monday). */
  function Weekday(d: Date): (w: int)
    requires Valid(d)
    ensures 0 <= w < 7
  {
    Ordinal(d) % 7
  }

  /** Consecutive day numbers fall on consecutive weekdays. */
  lemma WeekdayOfSuccessor(a: Date, b: Date)
    requires Valid(a) && Valid(b) && Ordinal(b) == Ordinal(a) + 1
    ensures Weekday(b) == (Weekday(a) + 1) % 7
  {
    SevenStep(Ordinal(a));
  }

  lemma SevenStep(o: int)
    ensures (o + 1) % 7 == (o % 7 + 1) % 7
  {
  }

  /** The next day is the next weekday. */
  lemma WeekdayAdvances(d: Date)
    requires Valid(d)
    ensures Weekday(NextDay(d)) == (Weekday(d) + 1) % 7
  {
    WeekdayOfSuccessor(d, NextDay(d));
  }

  /** Year and month (1 to 12) of the month after, `new Date(y, m + 1, 1)`. */
  function NextMonthStart(year: int, month: int): (r: Date)
    requires year >= 1 && 1 <= month <= 12
    ensures Valid(r) && r.day == 1
    ensures Ordinal(r) == Ordinal(Date(year, month, 1)) + DaysInMonth(year, month)
  {
    if month < 12 then (MonthStep(year, month); Date(year, month + 1, 1))
    else (YearStep(year); Date(year + 1, 1, 1))
  }

  /** Year and month of the month before, `new Date(y, m - 1, 1)`. */
  function PrevMonthStart(year: int, month: int): (r: Date)
    requires Valid(Date(year, month, 1)) && (year, month) != (1, 1)
    ensures Valid(r) && r.day == 1
    ensures Ordinal(r) + DaysInMonth(r.year, r.month) == Ordinal(Date(year, month, 1))
  {
    if month > 1 then (MonthStep(year, month - 1); Date(year, month - 1, 1))
    else (YearStep(year - 1); Date(year - 1, 12, 1))
  }

  /** Going a month forward and then a month back lands on the month started from. */
  lemma MonthNavigationInverse(year: int, month: int)
    requires year >= 1 && 1 <= month <= 12
    ensures var n := NextMonthStart(year, month);
            (n.year, n.month) != (1, 1) && PrevMonthStart(n.year, n.month) == Date(year, month, 1)
  {
    var n := NextMonthStart(year, month);
    if month < 12 {
      assert n == Date(year, month + 1, 1);
    } else {
      assert n == Date(year + 1, 1, 1);
    }
  }
}
