/**
 * Attendance in the second Django back end: one row per user and day,
 * created on first touch; a check-in that is only taken once; a check-out
 * that works out the hours and, from them, the status.
 *
 * Times of day are seconds after midnight.
 */
module WorkzenAttendance {
  import opened Common
  import opened Dates

  const Present := "Present"
  const Absent := "Absent"
  const HalfDay := "Half-Day"

  /** An `Attendance` row, without its user and date, which key the table. */
  datatype Record = Record(checkIn: Option<TimeOfDay>, checkOut: Option<TimeOfDay>, hoursWorked: Option<real>, status: string)

  /** A new row: no times, no hours, `Absent`. */
  const NewRecord := Record(None, None, None, Absent)

  /** The hours from check-in to check-out, a check-out earlier than the check-in falling on the next day. */
  function ShiftHours(checkIn: TimeOfDay, checkOut: TimeOfDay): (h: real)
    ensures 0.0 <= h < 24.0
    ensures h * 3600.0 == ShiftSeconds(checkIn, checkOut) as real
  {
    ShiftSeconds(checkIn, checkOut) as real / 3600.0
  }

  /**
   * `calculate_hours`: with both times set, the hours are stored rounded
   * to two places and a shift of eight hours or more is `Present`, of four
   * or more `Half-Day`; a shorter one keeps the status it had. Without both
   * times nothing changes.
   */
  function CalculateHours(r: Record): (s: Record)
    ensures r.checkIn.None? || r.checkOut.None? ==> s == r
    ensures r.checkIn.Some? && r.checkOut.Some? ==>
              var h := ShiftHours(r.checkIn.value, r.checkOut.value);
              s.checkIn == r.checkIn && s.checkOut == r.checkOut
              && s.hoursWorked == Some(RoundHalfEven2(h))
              && (h >= 8.0 ==> s.status == Present)
              && (4.0 <= h < 8.0 ==> s.status == HalfDay)
              && (h < 4.0 ==> s.status == r.status)
  {
    if r.checkIn.Some? && r.checkOut.Some? then
      var h := ShiftHours(r.checkIn.value, r.checkOut.value);
      r.(hoursWorked := Some(RoundHalfEven2(h)),
         status := if h >= 8.0 then Present else if h >= 4.0 then HalfDay else r.status)
    else r
  }

  /** Once a shift reaches eight hours, a later check-out on the same day keeps it `Present`. */
  lemma FullDayStaysPresent(r: Record, later: TimeOfDay)
    requires r.checkIn.Some? && r.checkOut.Some?
    requires r.checkIn.value <= r.checkOut.value <= later
    requires ShiftHours(r.checkIn.value, r.checkOut.value) >= 8.0
    ensures CalculateHours(r).status == Present
    ensures CalculateHours(r.(checkOut := Some(later))).status == Present
  {
    var a, b := r.checkIn.value, r.checkOut.value;
    ShiftSecondsUnique(a, b, b - a);
    ShiftSecondsUnique(a, later, later - a);
  }

  /**
   * The check-in already made the row `Present`, so a short shift stays
   * `Present` while a longer one of four to eight hours is marked down to
   * `Half-Day`: 09:00 to 10:00 keeps `Present`, 09:00 to 15:00 gives `Half-Day`.
   */
  lemma LongerShiftCanBeMarkedDown()
    ensures var checkedIn := Record(Some(9 * 3600), None, None, Present);
            CalculateHours(checkedIn.(checkOut := Some(10 * 3600))).status == Present
            && CalculateHours(checkedIn.(checkOut := Some(15 * 3600))).status == HalfDay
  {
    ShiftSecondsUnique(9 * 3600, 10 * 3600, 3600);
    ShiftSecondsUnique(9 * 3600, 15 * 3600, 6 * 3600);
  }

  /** The stored hours lie within half a hundredth of the worked time, so within [0, 24]. */
  lemma StoredHoursBounded(r: Record)
    requires r.checkIn.Some? && r.checkOut.Some?
    ensures CalculateHours(r).hoursWorked.Some?
    ensures 0.0 <= CalculateHours(r).hoursWorked.value <= 24.0
  {
    var h := ShiftHours(r.checkIn.value, r.checkOut.value);
    RoundHalfEven2Monotone(0.0, h);
    RoundHalfEven2Monotone(h, 24.0);
    RoundHalfEven2Exact(0.0);
    RoundHalfEven2Exact(24.0);
  }

  /** What `mark_attendance` answered. */
  datatype MarkOutcome = CheckedIn | CheckedOut | InvalidRequest

  /** The table, keyed by (user, date): the key makes the one-row-per-day rule hold by construction. */
  class AttendanceTable {
    var records: map<(int, Date), Record>

    constructor(records: map<(int, Date), Record>)
      ensures this.records == records
    {
      this.records := records;
    }

    /** `get_or_create(user=…, date=today)`: the day's row, created empty when missing. */
    method GetOrCreate(user: int, today: Date) returns (r: Record)
      modifies this
      ensures r == (if (user, today) in old(records) then old(records)[(user, today)] else NewRecord)
      ensures records == old(records)[(user, today) := r]
    {
      if (user, today) !in records {
        records := records[(user, today) := NewRecord];
      }
      r := records[(user, today)];
    }

    /**
     * `POST mark`. The day's row exists afterwards whatever happens. A
     * check-in is stored only when the row has none, and makes it
     * `Present`. Otherwise a check-out overwrites the check-out and, when
     * the row has a check-in, the hours and status are worked out and
     * saved; without a check-in nothing is saved although the answer says
     * the check-out was recorded. Anything else is a 400.
     */
    method MarkAttendance(user: int, today: Date, checkIn: Option<TimeOfDay>, checkOut: Option<TimeOfDay>) returns (outcome: MarkOutcome)
      modifies this
      ensures var r := if (user, today) in old(records) then old(records)[(user, today)] else NewRecord;
              if checkIn.Some? && r.checkIn.None? then
                outcome == CheckedIn
                && records == old(records)[(user, today) := r.(checkIn := checkIn, status := Present)]
              else if checkOut.Some? then
                outcome == CheckedOut
                && records == old(records)[(user, today) :=
                                 if r.checkIn.Some? then CalculateHours(r.(checkOut := checkOut)) else r]
              else
                outcome == InvalidRequest && records == old(records)[(user, today) := r]
      ensures (user, today) in records
      ensures (user, today) in old(records) && old(records)[(user, today)].checkIn.Some? ==>
                records[(user, today)].checkIn == old(records)[(user, today)].checkIn
    {
      var r := GetOrCreate(user, today);
      if checkIn.Some? && r.checkIn.None? {
        records := records[(user, today) := r.(checkIn := checkIn, status := Present)];
        return CheckedIn;
      } else if checkOut.Some? {
        var updated := r.(checkOut := checkOut);
        if updated.checkIn.Some? {
          records := records[(user, today) := CalculateHours(updated)];
        }
        return CheckedOut;
      }
      return InvalidRequest;
    }
  }
}
