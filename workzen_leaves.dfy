/**
 * The leave row of the second back end: three types, three statuses with
 * `Pending` as the default, and a day count that, unlike the first back
 * end's serializer, nothing guards against an end before the start.
 */
module WorkzenLeaves {
  import opened Common
  import opened Dates
  import Leaves

  datatype LeaveType = SickLeave | CasualLeave | VacationLeave
  datatype LeaveStatus = Pending | Approved | Rejected

  /** The value stored in `leave_type`. */
  function TypeCode(t: LeaveType): string {
    match t
    case SickLeave => "Sick"
    case CasualLeave => "Casual"
    case VacationLeave => "Vacation"
  }

  /** The value stored in `status`. */
  function StatusCode(s: LeaveStatus): string {
    match s
    case Pending => "Pending"
    case Approved => "Approved"
    case Rejected => "Rejected"
  }

  /** The stored values are distinct, so each names one choice. */
  lemma CodesDistinct(a: LeaveType, b: LeaveType, s: LeaveStatus, u: LeaveStatus)
    ensures TypeCode(a) == TypeCode(b) ==> a == b
    ensures StatusCode(s) == StatusCode(u) ==> s == u
  {
  }

  datatype Leave = Leave(
    user: int,
    leaveType: LeaveType,
    startDate: CalendarDate,
    endDate: CalendarDate,
    reason: string,
    status: LeaveStatus,
    approvedBy: Option<int>,
    rejectionReason: Option<string>)

  /** A row as created with only the required fields: pending, no reviewer, no rejection reason. */
  function NewLeave(user: int, t: LeaveType, start: CalendarDate, end: CalendarDate, reason: string): (l: Leave)
    ensures l.status == Pending && StatusCode(l.status) == "Pending"
    ensures l.approvedBy == None && l.rejectionReason == None
    ensures l.user == user && l.leaveType == t && l.startDate == start && l.endDate == end && l.reason == reason
  {
    Leave(user, t, start, end, reason, Pending, None, None)
  }

  /** `total_days`: end less start, plus one. */
  function TotalDays(l: Leave): int {
    DaysBetween(l.startDate, l.endDate) + 1
  }

  /** Both back ends count a leave's days the same way. */
  lemma SameCountAsFirstBackend(l: Leave)
    ensures TotalDays(l) == Leaves.DaysCount(l.startDate, l.endDate)
  {
  }

  /** Nothing stops an end before the start, and such a leave counts zero or fewer days. */
  lemma ReversedDatesCountNothing(l: Leave)
    requires Before(l.endDate, l.startDate)
    ensures TotalDays(l) <= 0
  {
    BeforeIffOrdinalLess(l.endDate, l.startDate);
  }
}
