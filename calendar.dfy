/**
 * The month calendar of the two "My Attendance" pages: a grid of weeks of
 * seven cells, the tail of the previous month first, then every day of the
 * month, then the start of the next month; and the buttons that move the
 * shown month back and forth. The employee page also switches to the photo
 * attendance view and back.
 */
module AttendanceCalendar {
  import opened Dates

  datatype CellKind = PrevMonth | CurrentMonth | NextMonth

  /** One cell: the day number shown and which month it belongs to. */
  datatype Cell = Cell(day: int, kind: CellKind)

  /** The number of weeks the grid has: five, or six when the month does not fit in five. */
  function Weeks(startingDayOfWeek: nat, daysInMonth: nat): nat {
    if startingDayOfWeek + daysInMonth > 35 then 6 else 5
  }

  /**
   * The cell at position `p` of the grid read row by row: the last
   * `startingDayOfWeek` days of the previous month, the days of the month,
   * then next month's days counted from 1.
   */
  function CellAt(startingDayOfWeek: nat, daysInMonth: nat, prevMonthLastDay: int, p: nat): Cell {
    if p < startingDayOfWeek then Cell(prevMonthLastDay - startingDayOfWeek + p + 1, PrevMonth)
    else if p - startingDayOfWeek < daysInMonth then Cell(p - startingDayOfWeek + 1, CurrentMonth)
    else Cell(p - startingDayOfWeek - daysInMonth + 1, NextMonth)
  }

  /** How many days of the month the first `p` cells show. */
  function CurrentBefore(startingDayOfWeek: nat, daysInMonth: nat, p: nat): nat {
    if p <= startingDayOfWeek then 0
    else if p - startingDayOfWeek < daysInMonth then p - startingDayOfWeek
    else daysInMonth
  }

  /** How many days of the next month the first `p` cells show. */
  function NextBefore(startingDayOfWeek: nat, daysInMonth: nat, p: nat): nat {
    if p <= startingDayOfWeek + daysInMonth then 0 else p - startingDayOfWeek - daysInMonth
  }

  /** Week `w` of the grid: the seven cells from position `7 * w` on. */
  function WeekAt(startingDayOfWeek: nat, daysInMonth: nat, prevMonthLastDay: int, w: nat): (r: seq<Cell>)
    ensures |r| == 7
    ensures forall j :: 0 <= j < 7 ==> r[j] == CellAt(startingDayOfWeek, daysInMonth, prevMonthLastDay, 7 * w + j)
  {
    seq(7, j requires 0 <= j < 7 => CellAt(startingDayOfWeek, daysInMonth, prevMonthLastDay, 7 * w + j))
  }

  /**
   * `generateCalendar`: week after week of seven cells, counting the days
   * of the month and of the next month as they are placed, and stopping
   * after the fifth week or later once the month is complete.
   */
  method GenerateCalendar(startingDayOfWeek: nat, daysInMonth: nat, prevMonthLastDay: int) returns (calendar: seq<seq<Cell>>)
    requires startingDayOfWeek < 7
    ensures |calendar| == Weeks(startingDayOfWeek, daysInMonth)
    ensures forall w :: 0 <= w < |calendar| ==> |calendar[w]| == 7
    ensures forall w, j :: 0 <= w < |calendar| && 0 <= j < |calendar[w]| ==>
              calendar[w][j] == CellAt(startingDayOfWeek, daysInMonth, prevMonthLastDay, 7 * w + j)
  {
    calendar := [];
    var dayCounter := 1;
    var nextMonthDay := 1;
    var i := 0;
    while i < 6
      invariant 0 <= i <= 6 && |calendar| == i
      invariant i >= 5 ==> startingDayOfWeek + daysInMonth > 35
      invariant forall w :: 0 <= w < i ==> calendar[w] == WeekAt(startingDayOfWeek, daysInMonth, prevMonthLastDay, w)
      invariant dayCounter == CurrentBefore(startingDayOfWeek, daysInMonth, 7 * i) + 1
      invariant nextMonthDay == NextBefore(startingDayOfWeek, daysInMonth, 7 * i) + 1
    {
      var week;
      week, dayCounter, nextMonthDay := FillWeek(startingDayOfWeek, daysInMonth, prevMonthLastDay, i, dayCounter, nextMonthDay);
      calendar := calendar + [week];
      if i >= 4 && dayCounter > daysInMonth {
        break;
      }
      i := i + 1;
    }
  }

  /** The inner loop of `generateCalendar`: the seven cells of week `i`, and the two counters after them. */
  method FillWeek(startingDayOfWeek: nat, daysInMonth: nat, prevMonthLastDay: int, i: nat, dayCounter0: int, nextMonthDay0: int)
    returns (week: seq<Cell>, dayCounter: int, nextMonthDay: int)
    requires startingDayOfWeek < 7
    requires dayCounter0 == CurrentBefore(startingDayOfWeek, daysInMonth, 7 * i) + 1
    requires nextMonthDay0 == NextBefore(startingDayOfWeek, daysInMonth, 7 * i) + 1
    ensures week == WeekAt(startingDayOfWeek, daysInMonth, prevMonthLastDay, i)
    ensures dayCounter == CurrentBefore(startingDayOfWeek, daysInMonth, 7 * i + 7) + 1
    ensures nextMonthDay == NextBefore(startingDayOfWeek, daysInMonth, 7 * i + 7) + 1
  {
    week, dayCounter, nextMonthDay := [], dayCounter0, nextMonthDay0;
    var j := 0;
    while j < 7
      invariant 0 <= j <= 7 && |week| == j
      invariant forall k :: 0 <= k < j ==> week[k] == CellAt(startingDayOfWeek, daysInMonth, prevMonthLastDay, 7 * i + k)
      invariant dayCounter == CurrentBefore(startingDayOfWeek, daysInMonth, 7 * i + j) + 1
      invariant nextMonthDay == NextBefore(startingDayOfWeek, daysInMonth, 7 * i + j) + 1
    {
      if i == 0 && j < startingDayOfWeek {
        week := week + [Cell(prevMonthLastDay - startingDayOfWeek + j + 1, PrevMonth)];
      } else if dayCounter > daysInMonth {
        week := week + [Cell(nextMonthDay, NextMonth)];
        nextMonthDay := nextMonthDay + 1;
      } else {
        week := week + [Cell(dayCounter, CurrentMonth)];
        dayCounter := dayCounter + 1;
      }
      j := j + 1;
    }
  }

  /**
   * For a grid that holds the whole month (every real month does: at most
   * 6 + 31 cells are needed), each position holds a previous-month day
   * exactly before `startingDayOfWeek`, and those days rise by one up to
   * the previous month's last day; each day 1 to `daysInMonth` of the month
   * sits at exactly one position; and the trailing days are numbered from 1.
   */
  lemma GridShape(startingDayOfWeek: nat, daysInMonth: nat, prevMonthLastDay: int)
    requires startingDayOfWeek < 7 && startingDayOfWeek + daysInMonth <= 42
    ensures var cells := 7 * Weeks(startingDayOfWeek, daysInMonth);
            startingDayOfWeek + daysInMonth <= cells
            && (forall p: nat :: p < cells ==> (CellAt(startingDayOfWeek, daysInMonth, prevMonthLastDay, p).kind == PrevMonth <==> p < startingDayOfWeek))
            && (startingDayOfWeek > 0 ==>
                  CellAt(startingDayOfWeek, daysInMonth, prevMonthLastDay, startingDayOfWeek - 1) == Cell(prevMonthLastDay, PrevMonth))
            && (forall p: nat :: 0 < p < startingDayOfWeek ==>
                  CellAt(startingDayOfWeek, daysInMonth, prevMonthLastDay, p).day
                  == CellAt(startingDayOfWeek, daysInMonth, prevMonthLastDay, p - 1).day + 1)
            && (forall d :: 1 <= d <= daysInMonth ==>
                  CellAt(startingDayOfWeek, daysInMonth, prevMonthLastDay, startingDayOfWeek + d - 1) == Cell(d, CurrentMonth))
            && (forall p: nat, d :: p < cells && CellAt(startingDayOfWeek, daysInMonth, prevMonthLastDay, p) == Cell(d, CurrentMonth) ==>
                  p == startingDayOfWeek + d - 1)
            && (startingDayOfWeek + daysInMonth < cells ==>
                  CellAt(startingDayOfWeek, daysInMonth, prevMonthLastDay, startingDayOfWeek + daysInMonth) == Cell(1, NextMonth))
  {
  }

  /** Every real month fits the grid, and a month fills a sixth week exactly when it overruns 35 cells. */
  lemma MonthFitsGrid(year: int, month: int)
    requires year >= 1 && 1 <= month <= 12
    ensures Weekday(Date(year, month, 1)) + DaysInMonth(year, month) <= 37
    ensures Weeks(Weekday(Date(year, month, 1)), DaysInMonth(year, month)) == 6
            <==> Weekday(Date(year, month, 1)) + DaysInMonth(year, month) > 35
  {
  }

  /** The last day of the month before: `new Date(year, month, 0).getDate()`. */
  function PrevMonthLastDay(year: int, month: int): (n: int)
    requires 1 <= month <= 12
    ensures 28 <= n <= 31
    ensures month > 1 ==> n == DaysInMonth(year, month - 1)
    ensures month == 1 ==> n == 31
  {
    if month == 1 then 31 else DaysInMonth(year, month - 1)
  }

  /** `calendar` is the reference grid of the month that holds `d`: its weeks, seven cells each, every cell the reference cell at its position. */
  predicate IsMonthGrid(calendar: seq<seq<Cell>>, d: Date)
    requires Valid(d)
  {
    var start, days := Weekday(Date(d.year, d.month, 1)), DaysInMonth(d.year, d.month);
    |calendar| == Weeks(start, days)
    && (forall w :: 0 <= w < |calendar| ==> |calendar[w]| == 7)
    && (forall w, j :: 0 <= w < |calendar| && 0 <= j < 7 ==>
          calendar[w][j] == CellAt(start, days, PrevMonthLastDay(d.year, d.month), 7 * w + j))
  }

  /** The grid of the month that holds `d`. */
  method MonthGrid(d: Date) returns (calendar: seq<seq<Cell>>)
    requires Valid(d)
    ensures IsMonthGrid(calendar, d)
  {
    calendar := GenerateCalendar(Weekday(Date(d.year, d.month, 1)), DaysInMonth(d.year, d.month), PrevMonthLastDay(d.year, d.month));
  }

  /** The state of `src/components/MyAttendance.jsx`: the date whose month is shown. */
  class MyAttendancePage {
    var selectedDate: Date

    predicate Valid()
      reads this
    {
      Dates.Valid(selectedDate)
    }

    constructor(today: Date)
      requires Dates.Valid(today)
      ensures Valid() && selectedDate == today
    {
      selectedDate := today;
    }

    /** The calendar rendered for the shown month. */
    method Calendar() returns (calendar: seq<seq<Cell>>)
      requires Valid()
      ensures IsMonthGrid(calendar, selectedDate)
    {
      calendar := MonthGrid(selectedDate);
    }

    /** `handlePrevMonth`: day 1 of the month before. */
    method PrevMonth()
      requires Valid() && (selectedDate.year, selectedDate.month) != (1, 1)
      modifies this
      ensures Valid() && selectedDate.day == 1
      ensures selectedDate == PrevMonthStart(old(selectedDate.year), old(selectedDate.month))
      ensures Ordinal(selectedDate) + DaysInMonth(selectedDate.year, selectedDate.month)
              == Ordinal(Date(old(selectedDate.year), old(selectedDate.month), 1))
    {
      selectedDate := PrevMonthStart(selectedDate.year, selectedDate.month);
    }

    /** `handleNextMonth`: day 1 of the month after. */
    method NextMonth()
      requires Valid()
      modifies this
      ensures Valid() && selectedDate.day == 1
      ensures selectedDate == NextMonthStart(old(selectedDate.year), old(selectedDate.month))
      ensures Ordinal(selectedDate) == Ordinal(Date(old(selectedDate.year), old(selectedDate.month), 1))
                                       + DaysInMonth(old(selectedDate.year), old(selectedDate.month))
    {
      selectedDate := NextMonthStart(selectedDate.year, selectedDate.month);
    }
  }

  /** The state of `src/components/employee/MyAttendance.jsx`: the shown month and whether the photo view is open. */
  class EmployeeAttendancePage {
    var selectedDate: Date
    var showPhotoAttendance: bool

    predicate Valid()
      reads this
    {
      Dates.Valid(selectedDate)
    }

    constructor(today: Date)
      requires Dates.Valid(today)
      ensures Valid() && selectedDate == today && !showPhotoAttendance
    {
      selectedDate := today;
      showPhotoAttendance := false;
    }

    /** The calendar rendered for the shown month. */
    method Calendar() returns (calendar: seq<seq<Cell>>)
      requires Valid()
      ensures IsMonthGrid(calendar, selectedDate)
    {
      calendar := MonthGrid(selectedDate);
    }

    method PrevMonth()
      requires Valid() && (selectedDate.year, selectedDate.month) != (1, 1)
      modifies this
      ensures Valid() && showPhotoAttendance == old(showPhotoAttendance)
      ensures selectedDate == PrevMonthStart(old(selectedDate.year), old(selectedDate.month))
    {
      selectedDate := PrevMonthStart(selectedDate.year, selectedDate.month);
    }

    method NextMonth()
      requires Valid()
      modifies this
      ensures Valid() && showPhotoAttendance == old(showPhotoAttendance)
      ensures selectedDate == NextMonthStart(old(selectedDate.year), old(selectedDate.month))
    {
      selectedDate := NextMonthStart(selectedDate.year, selectedDate.month);
    }

    /** "Mark Attendance": the photo view replaces the log; the shown month is kept. */
    method OpenPhotoAttendance()
      modifies this
      ensures showPhotoAttendance && selectedDate == old(selectedDate)
    {
      showPhotoAttendance := true;
    }

    /** "Back to Attendance Log": the log is shown again, on the same month. */
    method BackToLog()
      modifies this
      ensures !showPhotoAttendance && selectedDate == old(selectedDate)
    {
      showPhotoAttendance := false;
    }
  }
}
