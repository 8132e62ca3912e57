/**
 * The time-off pages of the web front end: the administrator's list
 * (`src/components/admin/TimeOffList.jsx`), which records who approved or
 * rejected a request and why, and the older list
 * (`src/components/TimeOffList.jsx`), which only flips the status. Both
 * keep the requests as React state, add new ones as pending, and show the
 * days still available per type.
 */
module TimeOff {
  import opened Common
  import opened Dates

  const PaidTimeOff := "Paid Time Off"
  const SickTimeOff := "Sick Time Off"
  const Pending := "Pending"
  const Approved := "Approved"
  const Rejected := "Rejected"
  const HrOfficer := "HR Officer"
  const HrApprover := "Lisa Anderson (HR Officer)"
  const AdminApprover := "Admin User (Administrator)"
  const NewRequestEmployeeId := "EMP001"
  const DefaultEmployee := "Current User"
  const PaidAllowance := 24
  const SickAllowance := 7

  /** A time-off request. The older list never fills the approval fields. */
  datatype Request = Request(
    id: string, employeeName: string, employeeId: string,
    startDate: CalendarDate, endDate: CalendarDate, timeOffType: string,
    status: string, days: int,
    approvedBy: Option<string>, approvedDate: Option<Date>, rejectionReason: Option<string>)

  /** The "New Time Off" form; an empty date field is `None`. */
  datatype NewRequestForm = NewRequestForm(employee: string, timeOffType: string, startDate: Option<CalendarDate>, endDate: Option<CalendarDate>)

  const EmptyForm := NewRequestForm(DefaultEmployee, PaidTimeOff, None, None)

  /** `Math.ceil((end - start) / one day) + 1` for two dates parsed at midnight: the days from start to end, both counted. */
  function InclusiveDays(start: CalendarDate, end: CalendarDate): (days: int)
    ensures days == DaysBetween(start, end) + 1
  {
    Ordinal(end) - Ordinal(start) + 1
  }

  /** A one-day request counts one day; an end before the start gives zero or fewer, as no check forbids it. */
  lemma InclusiveDaysSigns(start: CalendarDate, end: CalendarDate)
    ensures start == end ==> InclusiveDays(start, end) == 1
    ensures Before(end, start) ==> InclusiveDays(start, end) <= 0
  {
    BeforeIffOrdinalLess(end, start);
  }

  /** The request a submitted form adds: pending, for the fixed employee id, with the inclusive day count. */
  function NewRequest(form: NewRequestForm, id: string): (r: Request)
    requires form.startDate.Some? && form.endDate.Some?
    ensures r.status == Pending && r.id == id && r.employeeId == NewRequestEmployeeId
    ensures r.days == InclusiveDays(form.startDate.value, form.endDate.value)
    ensures r.approvedBy.None? && r.approvedDate.None? && r.rejectionReason.None?
  {
    Request(id, form.employee, NewRequestEmployeeId, form.startDate.value, form.endDate.value,
            form.timeOffType, Pending, InclusiveDays(form.startDate.value, form.endDate.value), None, None, None)
  }

  // ---------------------------------------------------------------------
  // Derived lists and counts

  /** `filteredRequests`: the requests whose employee name contains the query, ignoring case, in order. */
  function Search(requests: seq<Request>, query: string): (r: seq<Request>)
    ensures |r| <= |requests|
    ensures forall x :: x in r <==> x in requests && ContainsIgnoringCase(query, x.employeeName)
    ensures (forall k :: 0 <= k < |requests| ==> !ContainsIgnoringCase(query, requests[k].employeeName)) ==> r == []
  {
    if requests == [] then []
    else
      var rest := Search(requests[1..], query);
      if ContainsIgnoringCase(query, requests[0].employeeName) then [requests[0]] + rest else rest
  }

  /** An empty query keeps every request. */
  lemma {:induction false} EmptySearchKeepsAll(requests: seq<Request>)
    ensures Search(requests, "") == requests
  {
    if requests != [] {
      EmptySearchKeepsAll(requests[1..]);
      EmptyAlwaysContained(Lower(requests[0].employeeName));
    }
  }

  /** The administrator's Time Off tab for one type: the found requests of that type that are not approved. */
  function TimeOffTab(requests: seq<Request>, query: string, timeOffType: string): (r: seq<Request>)
    ensures forall x :: x in r <==>
              x in requests && ContainsIgnoringCase(query, x.employeeName)
              && x.status != Approved && x.timeOffType == timeOffType
  {
    var found := Search(requests, query);
    OfType(NotApproved(found), timeOffType)
  }

  function NotApproved(requests: seq<Request>): (r: seq<Request>)
    ensures forall x :: x in r <==> x in requests && x.status != Approved
  {
    if requests == [] then []
    else
      var rest := NotApproved(requests[1..]);
      if requests[0].status != Approved then [requests[0]] + rest else rest
  }

  function OfType(requests: seq<Request>, timeOffType: string): (r: seq<Request>)
    ensures forall x :: x in r <==> x in requests && x.timeOffType == timeOffType
  {
    if requests == [] then []
    else
      var rest := OfType(requests[1..], timeOffType);
      if requests[0].timeOffType == timeOffType then [requests[0]] + rest else rest
  }

  /** An approved request is shown on neither Time Off tab (only under Allocation). */
  lemma ApprovedLeaveTheTimeOffTabs(requests: seq<Request>, query: string, x: Request)
    requires x.status == Approved
    ensures x !in TimeOffTab(requests, query, PaidTimeOff) && x !in TimeOffTab(requests, query, SickTimeOff)
  {
  }

  /** The days of the approved requests of a type, optionally of one employee (`filter` then `reduce`). */
  function ApprovedDays(requests: seq<Request>, employeeId: Option<string>, timeOffType: string): int {
    if requests == [] then 0
    else
      var first := requests[0];
      (if first.status == Approved && first.timeOffType == timeOffType
          && (employeeId.None? || first.employeeId == employeeId.value)
       then first.days else 0)
      + ApprovedDays(requests[1..], employeeId, timeOffType)
  }

  lemma {:induction false} ApprovedDaysAppend(requests: seq<Request>, more: seq<Request>, employeeId: Option<string>, timeOffType: string)
    ensures ApprovedDays(requests + more, employeeId, timeOffType)
            == ApprovedDays(requests, employeeId, timeOffType) + ApprovedDays(more, employeeId, timeOffType)
  {
    if requests == [] {
      assert requests + more == more;
    } else {
      assert (requests + more)[0] == requests[0] && (requests + more)[1..] == requests[1..] + more;
      ApprovedDaysAppend(requests[1..], more, employeeId, timeOffType);
    }
  }

  /** Keeping only one type first does not change that type's approved days. */
  lemma {:induction false} OfTypeKeepsDays(requests: seq<Request>, timeOffType: string)
    ensures ApprovedDays(OfType(requests, timeOffType), None, timeOffType) == ApprovedDays(requests, None, timeOffType)
  {
    if requests != [] {
      OfTypeKeepsDays(requests[1..], timeOffType);
    }
  }

  /**
   * The older list's available days: the allowance less the approved days
   * among the requests the search finds, so the figure moves with the query.
   */
  function SearchedAvailableDays(requests: seq<Request>, query: string, timeOffType: string): (n: int)
    ensures n == Allowance(timeOffType) - ApprovedDays(Search(requests, query), None, timeOffType)
  {
    OfTypeKeepsDays(Search(requests, query), timeOffType);
    Allowance(timeOffType) - ApprovedDays(OfType(Search(requests, query), timeOffType), None, timeOffType)
  }

  /** With an empty query the older list counts every approved request; when the query finds nobody it shows the whole allowance. */
  lemma SearchedAvailability(requests: seq<Request>, query: string, timeOffType: string)
    ensures SearchedAvailableDays(requests, "", timeOffType) == Allowance(timeOffType) - ApprovedDays(requests, None, timeOffType)
    ensures (forall k :: 0 <= k < |requests| ==> !ContainsIgnoringCase(query, requests[k].employeeName)) ==>
              SearchedAvailableDays(requests, query, timeOffType) == Allowance(timeOffType)
  {
    EmptySearchKeepsAll(requests);
  }

  /** With no approved request counted, nothing is used. */
  lemma {:induction false} NoApprovedNoDays(requests: seq<Request>, employeeId: Option<string>, timeOffType: string)
    requires forall k :: 0 <= k < |requests| ==> requests[k].status != Approved
    ensures ApprovedDays(requests, employeeId, timeOffType) == 0
  {
    if requests != [] {
      NoApprovedNoDays(requests[1..], employeeId, timeOffType);
    }
  }

  /** The allowance of a type: 24 days of paid time off, 7 of anything else. */
  function Allowance(timeOffType: string): (n: int)
    ensures n == (if timeOffType == PaidTimeOff then PaidAllowance else SickAllowance)
  {
    if timeOffType == PaidTimeOff then 24 else 7
  }

  /** `getAvailableDays`: the allowance less the employee's approved days of that type; it can go below zero. */
  function AvailableDays(requests: seq<Request>, employeeId: string, timeOffType: string): (n: int)
    ensures n + ApprovedDays(requests, Some(employeeId), timeOffType) == Allowance(timeOffType)
  {
    Allowance(timeOffType) - ApprovedDays(requests, Some(employeeId), timeOffType)
  }

  /** Submitting a request never changes what is available, since new requests are pending. */
  lemma SubmittingKeepsAvailability(requests: seq<Request>, r: Request, employeeId: Option<string>, timeOffType: string)
    requires r.status == Pending
    ensures ApprovedDays(requests + [r], employeeId, timeOffType) == ApprovedDays(requests, employeeId, timeOffType)
  {
    ApprovedDaysAppend(requests, [r], employeeId, timeOffType);
  }

  /** Set the status and the approval fields of the requests with that id; the others are kept. */
  function Decide(requests: seq<Request>, id: Option<string>, status: string, approver: Option<string>,
                  date: Option<Date>, reason: Option<string>): (r: seq<Request>)
    ensures |r| == |requests|
    ensures forall k :: 0 <= k < |r| ==>
              if id == Some(requests[k].id)
              then r[k] == requests[k].(status := status, approvedBy := approver, approvedDate := date, rejectionReason := reason)
              else r[k] == requests[k]
  {
    seq(|requests|, k requires 0 <= k < |requests| =>
      if id == Some(requests[k].id)
      then requests[k].(status := status, approvedBy := approver, approvedDate := date, rejectionReason := reason)
      else requests[k])
  }

  /** Deciding a request keeps every other request's days where they were counted. */
  lemma {:induction false} DecideElsewhereKeepsDays(requests: seq<Request>, id: string, status: string, approver: Option<string>,
                                                    date: Option<Date>, reason: Option<string>, employeeId: Option<string>, timeOffType: string)
    requires forall k :: 0 <= k < |requests| ==> requests[k].id != id
    ensures ApprovedDays(Decide(requests, Some(id), status, approver, date, reason), employeeId, timeOffType)
            == ApprovedDays(requests, employeeId, timeOffType)
  {
    var r := Decide(requests, Some(id), status, approver, date, reason);
    assert r == requests;
  }

  // ---------------------------------------------------------------------
  // The administrator's list

  /** The state of `src/components/admin/TimeOffList.jsx`. */
  class AdminTimeOffList {
    const userRole: string
    var requests: seq<Request>
    var searchQuery: string
    var showRejectDialog: bool
    var rejectingRequestId: Option<string>
    var rejectionReason: string
    var showNewDialog: bool
    var newRequest: NewRequestForm

    constructor(userRole: string, requests: seq<Request>)
      ensures this.userRole == userRole && this.requests == requests
      ensures searchQuery == "" && !showRejectDialog && rejectingRequestId.None? && rejectionReason == ""
      ensures !showNewDialog && newRequest == EmptyForm
    {
      this.userRole := userRole;
      this.requests := requests;
      searchQuery := "";
      showRejectDialog := false;
      rejectingRequestId := None;
      rejectionReason := "";
      showNewDialog := false;
      newRequest := EmptyForm;
    }

    /** The name recorded as approver: the HR officer's for that role, the administrator's otherwise. */
    function ApproverName(): (name: string)
      ensures name == (if userRole == HrOfficer then HrApprover else AdminApprover)
    {
      if userRole == HrOfficer then HrApprover else AdminApprover
    }

    /** `handleApprove`: the request with that id becomes approved, by this user, today; nothing else changes. */
    method Approve(id: string, today: Date)
      modifies this
      ensures |requests| == |old(requests)|
      ensures forall k :: 0 <= k < |requests| ==>
                if old(requests)[k].id == id
                then requests[k] == old(requests)[k].(status := Approved, approvedBy := Some(ApproverName()), approvedDate := Some(today))
                else requests[k] == old(requests)[k]
      ensures searchQuery == old(searchQuery) && showRejectDialog == old(showRejectDialog)
      ensures rejectingRequestId == old(rejectingRequestId) && rejectionReason == old(rejectionReason)
      ensures showNewDialog == old(showNewDialog) && newRequest == old(newRequest)
    {
      var approver := if userRole == HrOfficer then HrApprover else AdminApprover;
      var rs := requests;
      requests := seq(|rs|, k requires 0 <= k < |rs| =>
        if rs[k].id == id
        then rs[k].(status := Approved, approvedBy := Some(approver), approvedDate := Some(today))
        else rs[k]);
    }

    /** `handleRejectClick`: the dialog opens for that request. */
    method RejectClick(id: string)
      modifies this
      ensures rejectingRequestId == Some(id) && showRejectDialog
      ensures requests == old(requests) && rejectionReason == old(rejectionReason)
      ensures searchQuery == old(searchQuery) && showNewDialog == old(showNewDialog) && newRequest == old(newRequest)
    {
      rejectingRequestId := Some(id);
      showRejectDialog := true;
    }

    /**
     * `handleRejectConfirm`: a blank reason changes nothing. Otherwise the
     * request being rejected gets status Rejected, this user, today and
     * the reason as typed, the others are kept, and the dialog is reset.
     */
    method RejectConfirm(today: Date)
      modifies this
      ensures AllSpace(old(rejectionReason), JavaScript) ==>
                requests == old(requests) && rejectionReason == old(rejectionReason)
                && rejectingRequestId == old(rejectingRequestId) && showRejectDialog == old(showRejectDialog)
      ensures !AllSpace(old(rejectionReason), JavaScript) ==>
                requests == Decide(old(requests), old(rejectingRequestId), Rejected, Some(ApproverName()),
                                   Some(today), Some(old(rejectionReason)))
                && !showRejectDialog && rejectionReason == "" && rejectingRequestId.None?
      ensures searchQuery == old(searchQuery) && showNewDialog == old(showNewDialog) && newRequest == old(newRequest)
    {
      if Blank(rejectionReason) {
        return;
      }
      var updated := Decide(requests, rejectingRequestId, Rejected, Some(ApproverName()), Some(today), Some(rejectionReason));
      requests := updated;
      showRejectDialog := false;
      rejectionReason := "";
      rejectingRequestId := None;
    }

    /**
     * `handleSubmitRequest`: without both dates nothing happens; otherwise
     * one pending request is appended, the dialog closes and the form is
     * reset.
     */
    method Submit(newId: string)
      modifies this
      ensures old(newRequest).startDate.None? || old(newRequest).endDate.None? ==>
                requests == old(requests) && newRequest == old(newRequest) && showNewDialog == old(showNewDialog)
      ensures old(newRequest).startDate.Some? && old(newRequest).endDate.Some? ==>
                requests == old(requests) + [NewRequest(old(newRequest), newId)]
                && newRequest == EmptyForm && !showNewDialog
      ensures searchQuery == old(searchQuery) && rejectionReason == old(rejectionReason)
      ensures showRejectDialog == old(showRejectDialog) && rejectingRequestId == old(rejectingRequestId)
    {
      if newRequest.startDate.Some? && newRequest.endDate.Some? {
        requests := requests + [NewRequest(newRequest, newId)];
        showNewDialog := false;
        newRequest := EmptyForm;
      }
    }

    /** Paid days still available: the allowance less every approved paid request, whatever is searched. */
    function AvailablePaidDays(): (n: int)
      reads this
      ensures n == PaidAllowance - ApprovedDays(requests, None, PaidTimeOff)
    {
      24 - ApprovedDays(requests, None, PaidTimeOff)
    }

    function AvailableSickDays(): (n: int)
      reads this
      ensures n == SickAllowance - ApprovedDays(requests, None, SickTimeOff)
    {
      7 - ApprovedDays(requests, None, SickTimeOff)
    }
  }

  // ---------------------------------------------------------------------
  // The older list

  /** The state of `src/components/TimeOffList.jsx`. */
  class TimeOffList {
    var requests: seq<Request>
    var searchQuery: string
    var showNewDialog: bool
    var newRequest: NewRequestForm

    constructor(requests: seq<Request>)
      ensures this.requests == requests && searchQuery == "" && !showNewDialog && newRequest == EmptyForm
    {
      this.requests := requests;
      searchQuery := "";
      showNewDialog := false;
      newRequest := EmptyForm;
    }

    /** `handleApprove` / `handleReject`: the requests with that id take the status, whatever status they had. */
    method SetStatus(id: string, status: string)
      modifies this
      ensures |requests| == |old(requests)|
      ensures forall k :: 0 <= k < |requests| ==>
                requests[k] == if old(requests)[k].id == id then old(requests)[k].(status := status) else old(requests)[k]
      ensures searchQuery == old(searchQuery) && showNewDialog == old(showNewDialog) && newRequest == old(newRequest)
    {
      var rs := requests;
      requests := seq(|rs|, k requires 0 <= k < |rs| =>
        if rs[k].id == id then rs[k].(status := status) else rs[k]);
    }

    /** `handleSubmitRequest`, as on the administrator's list. */
    method Submit(newId: string)
      modifies this
      ensures old(newRequest).startDate.None? || old(newRequest).endDate.None? ==>
                requests == old(requests) && newRequest == old(newRequest) && showNewDialog == old(showNewDialog)
      ensures old(newRequest).startDate.Some? && old(newRequest).endDate.Some? ==>
                requests == old(requests) + [NewRequest(old(newRequest), newId)]
                && newRequest == EmptyForm && !showNewDialog
      ensures searchQuery == old(searchQuery)
    {
      if newRequest.startDate.Some? && newRequest.endDate.Some? {
        requests := requests + [NewRequest(newRequest, newId)];
        showNewDialog := false;
        newRequest := EmptyForm;
      }
    }

    /** Paid days available here count only the approved requests the search finds. */
    function AvailablePaidDays(): (n: int)
      reads this
      ensures n == PaidAllowance - ApprovedDays(Search(requests, searchQuery), None, PaidTimeOff)
    {
      SearchedAvailableDays(requests, searchQuery, PaidTimeOff)
    }

    function AvailableSickDays(): (n: int)
      reads this
      ensures n == SickAllowance - ApprovedDays(Search(requests, searchQuery), None, SickTimeOff)
    {
      SearchedAvailableDays(requests, searchQuery, SickTimeOff)
    }
  }
}
