/**
 * Attendance in the Django back end: one mark per employee per day, the
 * attendance percentage over a date range, and overtime, whose hours earn
 * compensatory days off in the year's leave balance.
 *
 * Times of day are seconds after midnight.
 */
module Attendance {
  import opened Common
  import opened Dates
  import opened HrRecords
  import Leaves

  // ---------------------------------------------------------------------
  // mark_attendance
  // ---------------------------------------------------------------------

  /** At most one row per employee and date (`unique_together`). */
  predicate OnePerDay(rows: seq<AttendanceRow>) {
    forall i, j :: 0 <= i < j < |rows| ==> !(rows[i].employee == rows[j].employee && rows[i].date == rows[j].date)
  }

  predicate MarkedOn(rows: seq<AttendanceRow>, employee: int, date: Date) {
    exists i :: 0 <= i < |rows| && rows[i].employee == employee && rows[i].date == date
  }

  // ---------------------------------------------------------------------
  // get_attendance_history
  // ---------------------------------------------------------------------

  /** `start <= d <= end`, with Python's date order. */
  predicate InRange(d: Date, start: Date, end: Date) {
    !Before(d, start) && !Before(end, d)
  }

  /** Rows of `employee` dated in the range with status `present`. */
  function PresentInRange(rows: seq<AttendanceRow>, employee: int, start: Date, end: Date): (n: nat)
    ensures n <= |rows|
  {
    if rows == [] then 0
    else PresentInRange(rows[..|rows| - 1], employee, start, end)
         + (var r := rows[|rows| - 1];
            if r.employee == employee && InRange(r.date, start, end) && r.status == StatusPresent then 1 else 0)
  }

  /** The present days of two tables read one after the other add up. */
  lemma {:induction false} PresentInRangeAppend(a: seq<AttendanceRow>, b: seq<AttendanceRow>, employee: int, start: Date, end: Date)
    ensures PresentInRange(a + b, employee, start, end)
            == PresentInRange(a, employee, start, end) + PresentInRange(b, employee, start, end)
    decreases |b|
  {
    if b == [] {
      assert a + b == a;
    } else {
      var b' := b[..|b| - 1];
      assert (a + b)[..|a + b| - 1] == a + b';
      assert (a + b)[|a + b| - 1] == b[|b| - 1];
      PresentInRangeAppend(a, b', employee, start, end);
    }
  }

  /** One row counts exactly when it is the employee's, dated in the range and present. */
  lemma PresentInRangeSingle(r: AttendanceRow, employee: int, start: Date, end: Date)
    ensures PresentInRange([r], employee, start, end)
            == if r.employee == employee && InRange(r.date, start, end) && r.status == StatusPresent then 1 else 0
  {
    assert [r][..0] == [];
  }

  /** The figures the history answers with. */
  datatype History = History(totalDays: int, presentDays: nat, percentage: real)

  /**
   * The range defaults to the first of the current month through today;
   * the total counts both ends, and the percentage is present over total,
   * rounded to two places, or 0 when the range is empty or reversed.
   */
  function AttendanceHistory(rows: seq<AttendanceRow>, employee: int, today: CalendarDate,
                             startParam: Option<CalendarDate>, endParam: Option<CalendarDate>): (h: History)
    ensures var start := if startParam.Some? then startParam.value else today.(day := 1);
            var end := if endParam.Some? then endParam.value else today;
            h.totalDays == DaysBetween(start, end) + 1
            && h.presentDays == PresentInRange(rows, employee, start, end)
    ensures h.totalDays <= 0 ==> h.percentage == 0.0
    ensures h.totalDays > 0 ==> h.percentage == RoundHalfEven2(h.presentDays as real / h.totalDays as real * 100.0)
  {
    var start: CalendarDate := if startParam.Some? then startParam.value else today.(day := 1);
    var end: CalendarDate := if endParam.Some? then endParam.value else today;
    var total := DaysBetween(start, end) + 1;
    var present := PresentInRange(rows, employee, start, end);
    History(total, present, if total > 0 then RoundHalfEven2(present as real / total as real * 100.0) else 0.0)
  }

  /** A percentage of no more present days than days in range lies in [0, 100], and full attendance is exactly 100. */
  lemma HistoryPercentageBounds(h: History)
    requires h.totalDays > 0 && h.presentDays <= h.totalDays
    requires h.percentage == RoundHalfEven2(h.presentDays as real / h.totalDays as real * 100.0)
    ensures 0.0 <= h.percentage <= 100.0
    ensures h.presentDays == h.totalDays ==> h.percentage == 100.0
  {
    var x := h.presentDays as real / h.totalDays as real * 100.0;
    RatioAtMostOne(h.presentDays as real, h.totalDays as real);
    RoundHalfEven2Exact(0.0);
    RoundHalfEven2Exact(100.0);
    RoundHalfEven2Monotone(0.0, x);
    RoundHalfEven2Monotone(x, 100.0);
  }

  lemma RatioAtMostOne(p: real, t: real)
    requires 0.0 <= p <= t && t > 0.0
    ensures 0.0 <= p / t <= 1.0
    ensures p == t ==> p / t == 1.0
  {
    var q := p / t;
    assert q * t == p;
    assert (q - 1.0) * t == p - t;
  }

  /** A range that ends before it starts reports nothing. */
  lemma ReversedRangeIsZero(rows: seq<AttendanceRow>, employee: int, today: CalendarDate, start: CalendarDate, end: CalendarDate)
    requires Before(end, start)
    ensures AttendanceHistory(rows, employee, today, Some(start), Some(end)).percentage == 0.0
  {
    BeforeIffOrdinalLess(end, start);
  }

  // ---------------------------------------------------------------------
  // OvertimeRecordSerializer
  // ---------------------------------------------------------------------

  /** `get_comp_off_earned`: eight hours make one day. */
  function CompOffEarned(hoursWorked: real): (days: real)
    ensures days * 8.0 == hoursWorked
  {
    hoursWorked / 8.0
  }

  /**
   * The two-place balance column loses the third decimal of an hour's
   * comp-off: one hour of overtime on an empty balance stores 0.12 days,
   * and a second one 0.24, not 0.25.
   */
  lemma StoredCompOffDrifts()
    ensures RoundHalfEven2(0.0 + CompOffEarned(1.0)) == 0.12
    ensures RoundHalfEven2(0.12 + CompOffEarned(1.0)) == 0.24
  {
    assert CompOffEarned(1.0) == 0.125;
    assert (0.125 * 100.0).Floor == 12;
    assert (0.245 * 100.0).Floor == 24;
  }

  /** A time of day as `TimeField` parses it, to the second. */
  predicate IsTimeOfDay(t: int) {
    0 <= t < SecondsPerDay
  }

  /**
   * The shift length in seconds as `validate` computes it: an end before
   * the start moves the end to the next day by adding one to the day of
   * the month, which raises on the last day of a month (`None`).
   */
  function OvertimeSecondsAsWritten(today: CalendarDate, start: int, end: int): (r: Option<int>)
    requires IsTimeOfDay(start) && IsTimeOfDay(end)
    ensures r.None? <==> end < start && today.day == DaysInMonth(today.year, today.month)
  {
    if end < start then
      (if today.day + 1 > DaysInMonth(today.year, today.month) then None else Some(end + SecondsPerDay - start))
    else Some(end - start)
  }

  /** When it does not raise, the code as written measures the shift the way the corrected rule does. */
  lemma AsWrittenAgreesWhenItAnswers(today: CalendarDate, start: int, end: int)
    requires IsTimeOfDay(start) && IsTimeOfDay(end)
    requires OvertimeSecondsAsWritten(today, start, end).Some?
    ensures OvertimeSecondsAsWritten(today, start, end).value == ShiftSeconds(start, end)
  {
    ShiftSecondsUnique(start, end, OvertimeSecondsAsWritten(today, start, end).value);
  }

  /** An overnight shift recorded on 31 January 2025, 22:00 to 02:00, raises instead of counting four hours. */
  lemma OvernightOnLastDayRaises()
    ensures OvertimeSecondsAsWritten(Date(2025, 1, 31), 22 * 3600, 2 * 3600) == None
    ensures ShiftSeconds(22 * 3600, 2 * 3600) == 4 * 3600
  {
    ShiftSecondsUnique(22 * 3600, 2 * 3600, 4 * 3600);
  }

  /**
   * The overtime hours: the time from start to end, the end taken on the
   * next day when it is earlier, rounded to two places.
   */
  function OvertimeHours(start: int, end: int): (hours: real)
    requires IsTimeOfDay(start) && IsTimeOfDay(end)
    ensures 0.0 <= hours <= 24.0 && IsCents(hours)
    ensures hours == RoundHalfEven2(ShiftSeconds(start, end) as real / 3600.0)
  {
    var h := ShiftSeconds(start, end) as real / 3600.0;
    RoundHalfEven2Monotone(0.0, h);
    RoundHalfEven2Monotone(h, 24.0);
    RoundHalfEven2Exact(0.0);
    RoundHalfEven2Exact(24.0);
    RoundHalfEven2(h)
  }

  /** A later end on the same day never yields fewer hours. */
  lemma OvertimeHoursMonotone(start: int, e1: int, e2: int)
    requires IsTimeOfDay(start) && IsTimeOfDay(e1) && IsTimeOfDay(e2)
    requires start <= e1 <= e2
    ensures OvertimeHours(start, e1) <= OvertimeHours(start, e2)
  {
    ShiftSecondsUnique(start, e1, e1 - start);
    ShiftSecondsUnique(start, e2, e2 - start);
    RoundHalfEven2Monotone((e1 - start) as real / 3600.0, (e2 - start) as real / 3600.0);
  }

  /**
   * `validate`: with both times present the hours are recomputed and
   * replace whatever the client sent; otherwise the client's figure stands.
   */
  function ValidatedHours(start: Option<int>, end: Option<int>, clientHours: real): (hours: real)
    requires start.Some? ==> IsTimeOfDay(start.value)
    requires end.Some? ==> IsTimeOfDay(end.value)
    ensures start.Some? && end.Some? ==> hours == OvertimeHours(start.value, end.value)
    ensures start.None? || end.None? ==> hours == clientHours
  {
    if start.Some? && end.Some? then OvertimeHours(start.value, end.value) else clientHours
  }

  /** The request body of `mark_overtime`; absent fields are `None`. */
  datatype OvertimeInput = OvertimeInput(date: Option<CalendarDate>, startTime: Option<int>, endTime: Option<int>, hoursWorked: Option<real>)

  /** An `OvertimeRecord` row. */
  datatype OvertimeRow = OvertimeRow(employee: int, date: Date, startTime: int, endTime: int, hoursWorked: real)

  /**
   * The field checks: both times and the hours are required, the times must
   * be times of day, and the hours must fit `DecimalField(max_digits=5,
   * decimal_places=2)`.
   */
  predicate OvertimeInputValid(inp: OvertimeInput) {
    inp.startTime.Some? && inp.endTime.Some? && inp.hoursWorked.Some?
    && IsTimeOfDay(inp.startTime.value) && IsTimeOfDay(inp.endTime.value)
    && IsCents(inp.hoursWorked.value) && -1000.0 < inp.hoursWorked.value < 1000.0
  }

  /** The attendance and overtime tables. */
  class AttendanceStore {
    var rows: seq<AttendanceRow>
    var overtime: seq<OvertimeRow>

    constructor(rows: seq<AttendanceRow>)
      requires OnePerDay(rows)
      ensures this.rows == rows && overtime == [] && OnePerDay(this.rows)
    {
      this.rows := rows;
      overtime := [];
    }

    /**
     * `POST mark`: a second mark on the same day is refused and adds
     * nothing; otherwise a row with the requested status, `present` by
     * default, is added. The time of day plays no part.
     */
    method MarkAttendance(user: int, today: CalendarDate, status: Option<string>) returns (created: bool)
      requires OnePerDay(rows)
      modifies this
      ensures OnePerDay(rows) && overtime == old(overtime)
      ensures created <==> !MarkedOn(old(rows), user, today)
      ensures !created ==> rows == old(rows)
      ensures created ==> rows == old(rows) + [AttendanceRow(user, today, if status.Some? then status.value else StatusPresent)]
    {
      var i := 0;
      while i < |rows|
        invariant 0 <= i <= |rows|
        invariant forall j :: 0 <= j < i ==> !(rows[j].employee == user && rows[j].date == today)
      {
        if rows[i].employee == user && rows[i].date == today {
          return false;
        }
        i := i + 1;
      }
      var s := if status.Some? then status.value else StatusPresent;
      rows := rows + [AttendanceRow(user, today, s)];
      return true;
    }

    /**
     * `POST overtime`: a valid request stores the record with the
     * recomputed hours and adds hours / 8 days to the comp-off balance of
     * the user for the current year, creating that balance first when
     * there is none. The balance column keeps two places, so the sum is
     * stored rounded half-to-even to hundredths. An invalid request changes
     * nothing.
     */
    method MarkOvertime(user: int, today: CalendarDate, inp: OvertimeInput, leaves: Leaves.LeaveStore)
      returns (ok: bool, compOffDays: real)
      modifies this, leaves
      ensures rows == old(rows) && leaves.requests == old(leaves.requests)
      ensures ok <==> OvertimeInputValid(inp)
      ensures !ok ==> overtime == old(overtime) && leaves.balances == old(leaves.balances)
      ensures ok ==>
                var hours := OvertimeHours(inp.startTime.value, inp.endTime.value);
                var key := (user, today.year);
                var b := Leaves.BalanceFor(old(leaves.balances), key);
                compOffDays == CompOffEarned(hours)
                && overtime == old(overtime) + [OvertimeRow(user, if inp.date.Some? then inp.date.value else today,
                                                            inp.startTime.value, inp.endTime.value, hours)]
                && leaves.balances == old(leaves.balances)[key := b.(compOffBalance := RoundHalfEven2(b.compOffBalance + compOffDays))]
    {
      if !OvertimeInputValid(inp) {
        return false, 0.0;
      }
      var hours := ValidatedHours(inp.startTime, inp.endTime, inp.hoursWorked.value);
      var date := if inp.date.Some? then inp.date.value else today;
      overtime := overtime + [OvertimeRow(user, date, inp.startTime.value, inp.endTime.value, hours)];
      compOffDays := CompOffEarned(hours);
      var key := (user, today.year);
      var b := Leaves.BalanceFor(leaves.balances, key);
      leaves.balances := leaves.balances[key := b.(compOffBalance := RoundHalfEven2(b.compOffBalance + compOffDays))];
      ok := true;
    }
  }
}
