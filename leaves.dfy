/**
 * Leave requests and leave balances of the Django back end: the inclusive
 * day count, the per-type balance check made when an employee applies, and
 * the `pending -> approved | rejected` decisions, where approval debits the
 * counter of the request's type in the balance of its start year.
 */
module Leaves {
  import opened Common
  import opened Dates
  import Sentiment

  datatype LeaveType = Casual | Sick | Personal | Earned | CompOff
  datatype LeaveStatus = Pending | Approved | Rejected

  /** The value stored in the `leave_type` column. */
  function TypeCode(t: LeaveType): string {
    match t
    case Casual => "casual"
    case Sick => "sick"
    case Personal => "personal"
    case Earned => "earned"
    case CompOff => "comp_off"
  }

  /** Reading a submitted `leave_type`: one of the five choice values, or nothing. */
  function ParseType(s: string): (r: Option<LeaveType>)
    ensures r.Some? ==> TypeCode(r.value) == s
  {
    if s == "casual" then Some(Casual)
    else if s == "sick" then Some(Sick)
    else if s == "personal" then Some(Personal)
    else if s == "earned" then Some(Earned)
    else if s == "comp_off" then Some(CompOff)
    else None
  }

  /** Every type's stored value reads back as that type. */
  lemma ParseTypeCode(t: LeaveType)
    ensures ParseType(TypeCode(t)) == Some(t)
  {
  }

  /** The value stored in the `status` column. */
  function StatusCode(s: LeaveStatus): string {
    match s
    case Pending => "pending"
    case Approved => "approved"
    case Rejected => "rejected"
  }

  /** A stored leave request. `approvedBy` records whoever decided it, for a rejection too. */
  datatype LeaveRequest = LeaveRequest(
    employee: int,
    leaveType: LeaveType,
    startDate: CalendarDate,
    endDate: CalendarDate,
    reason: string,
    status: LeaveStatus,
    approvedBy: Option<int>,
    sentimentScore: real,
    burnoutRisk: bool,
    publicId: string)

  // ---------------------------------------------------------------------
  // Day count

  /** `days_count`: the days from start to end, both included. */
  function DaysCount(start: CalendarDate, end: CalendarDate): int {
    DaysBetween(start, end) + 1
  }

  /** A leave that starts and ends on the same day lasts one day. */
  lemma SingleDayIsOne(d: CalendarDate)
    ensures DaysCount(d, d) == 1
  {
  }

  /** Moving the end one day later adds one day. */
  lemma DaysCountExtends(start: CalendarDate, end: CalendarDate)
    ensures DaysCount(start, NextDay(end)) == DaysCount(start, end) + 1
  {
  }

  /** The count is at least one exactly when the end is not before the start. */
  lemma DaysCountPositiveIff(start: CalendarDate, end: CalendarDate)
    ensures DaysCount(start, end) >= 1 <==> !Before(end, start)
  {
    BeforeIffOrdinalLess(end, start);
  }

  // ---------------------------------------------------------------------
  // Balances

  /** One employee's balance for one year. */
  datatype LeaveBalance = LeaveBalance(
    casualAllocated: int, casualUsed: int,
    sickAllocated: int, sickUsed: int,
    personalAllocated: int, personalUsed: int,
    earnedAllocated: int, earnedUsed: int,
    compOffBalance: real)

  /** A balance row as `get_or_create` makes it: 12 casual, 8 sick, 5 personal, 5 earned, no comp-off, nothing used. */
  const DefaultBalance := LeaveBalance(12, 0, 8, 0, 5, 0, 5, 0, 0.0)

  function CasualRemaining(b: LeaveBalance): int { b.casualAllocated - b.casualUsed }
  function SickRemaining(b: LeaveBalance): int { b.sickAllocated - b.sickUsed }
  function PersonalRemaining(b: LeaveBalance): int { b.personalAllocated - b.personalUsed }
  function EarnedRemaining(b: LeaveBalance): int { b.earnedAllocated - b.earnedUsed }

  /** What is left of a type: allocation less use, or the comp-off balance itself. */
  function Available(b: LeaveBalance, t: LeaveType): real {
    match t
    case Casual => CasualRemaining(b) as real
    case Sick => SickRemaining(b) as real
    case Personal => PersonalRemaining(b) as real
    case Earned => EarnedRemaining(b) as real
    case CompOff => b.compOffBalance
  }

  /** A fresh balance has its whole allocation left. */
  lemma DefaultAvailable()
    ensures Available(DefaultBalance, Casual) == 12.0 && Available(DefaultBalance, Sick) == 8.0
    ensures Available(DefaultBalance, Personal) == 5.0 && Available(DefaultBalance, Earned) == 5.0
    ensures Available(DefaultBalance, CompOff) == 0.0
  {
  }

  predicate SameAllocations(a: LeaveBalance, b: LeaveBalance) {
    a.casualAllocated == b.casualAllocated && a.sickAllocated == b.sickAllocated
    && a.personalAllocated == b.personalAllocated && a.earnedAllocated == b.earnedAllocated
  }

  /**
   * The approval debit: the used counter of the type grows by `days` (the
   * comp-off balance shrinks by it), and no other figure moves.
   */
  function Debit(b: LeaveBalance, t: LeaveType, days: int): (r: LeaveBalance)
    ensures SameAllocations(r, b)
    ensures Available(r, t) == Available(b, t) - days as real
    ensures forall u :: u != t ==> Available(r, u) == Available(b, u)
  {
    match t
    case Casual => b.(casualUsed := b.casualUsed + days)
    case Sick => b.(sickUsed := b.sickUsed + days)
    case Personal => b.(personalUsed := b.personalUsed + days)
    case Earned => b.(earnedUsed := b.earnedUsed + days)
    case CompOff => b.(compOffBalance := b.compOffBalance - days as real)
  }

  /** The application check: every type but earned leave must have the requested days left. */
  predicate Short(b: LeaveBalance, t: LeaveType, days: int) {
    t != Earned && Available(b, t) < days as real
  }

  /** A request that passed the check, approved against that same balance, leaves no type but
      earned leave overdrawn. */
  lemma CheckedThenApprovedStaysCovered(b: LeaveBalance, t: LeaveType, days: int)
    requires !Short(b, t, days) && t != Earned
    ensures Available(Debit(b, t, days), t) >= 0.0
  {
  }

  /** Approval checks nothing: approving more days than are left drives the balance negative,
      and earned leave is never checked at application. */
  lemma ApprovalCanOverdraw(b: LeaveBalance, t: LeaveType, days: int)
    requires Available(b, t) < days as real
    ensures Available(Debit(b, t, days), t) < 0.0
    ensures t == Earned ==> !Short(b, t, days)
  {
  }

  // ---------------------------------------------------------------------
  // Submitted data

  /**
   * What a client posts. The last six fields are the serializer's read-only
   * fields: accepted in the body, never used.
   */
  datatype LeaveInput = LeaveInput(
    leaveType: string,
    startDate: Option<CalendarDate>,
    endDate: Option<CalendarDate>,
    reason: string,
    employee: Option<int>,
    status: Option<string>,
    approvedBy: Option<int>,
    sentimentScore: Option<real>,
    burnoutRisk: Option<bool>,
    publicId: Option<string>)

  /** `LeaveRequestSerializer.validate`: an end before the start is refused; when either date is
      missing the check is skipped. */
  function ValidateDates(start: Option<CalendarDate>, end: Option<CalendarDate>): (ok: bool)
    ensures start.None? || end.None? ==> ok
    ensures start.Some? && end.Some? ==> (ok <==> DaysCount(start.value, end.value) >= 1)
  {
    if start.Some? && end.Some? then
      DaysCountPositiveIff(start.value, end.value);
      !Before(end.value, start.value)
    else true
  }

  /** A one-day leave passes the date check. */
  lemma SingleDayAccepted(d: CalendarDate)
    ensures ValidateDates(Some(d), Some(d))
  {
  }

  /** `is_valid()`: a known type, both dates, a reason that is not blank, and the date check. */
  predicate InputValid(inp: LeaveInput) {
    ParseType(inp.leaveType).Some? && inp.startDate.Some? && inp.endDate.Some?
    && Trim(inp.reason, Python) != "" && ValidateDates(inp.startDate, inp.endDate)
  }

  /** The request `apply_leave` stores: the applicant, the submitted type, dates and (stripped)
      reason, status pending, no decider, and the sentiment of the reason. */
  function NewRequest(user: int, inp: LeaveInput, polarity: real, subjectivity: real, uuidHex: string): (r: LeaveRequest)
    requires InputValid(inp) && IsUuidHex(uuidHex)
    ensures r.employee == user && r.status == Pending && r.approvedBy == None
    ensures r.startDate == inp.startDate.value && r.endDate == inp.endDate.value
    ensures r.reason == Trim(inp.reason, Python) && r.leaveType == ParseType(inp.leaveType).value
    ensures TypeCode(r.leaveType) == inp.leaveType
    ensures r.sentimentScore == polarity
    ensures r.burnoutRisk == Sentiment.AnalyzeLeaveSentiment(r.reason, polarity, subjectivity).burnoutRisk
    ensures r.publicId == SetOnceId("", "leave_", uuidHex)
  {
    var reason := Trim(inp.reason, Python);
    var analysis := Sentiment.AnalyzeLeaveSentiment(reason, polarity, subjectivity);
    LeaveRequest(user, ParseType(inp.leaveType).value, inp.startDate.value, inp.endDate.value, reason,
                 Pending, None, analysis.polarity, analysis.burnoutRisk, SetOnceId("", "leave_", uuidHex))
  }

  /** Whatever a client puts in the read-only fields, the stored request is the same. */
  lemma ReadOnlyFieldsIgnored(user: int, a: LeaveInput, b: LeaveInput, polarity: real, subjectivity: real, uuidHex: string)
    requires InputValid(a) && IsUuidHex(uuidHex)
    requires a.leaveType == b.leaveType && a.startDate == b.startDate && a.endDate == b.endDate && a.reason == b.reason
    ensures InputValid(b)
    ensures NewRequest(user, a, polarity, subjectivity, uuidHex) == NewRequest(user, b, polarity, subjectivity, uuidHex)
  {
  }

  /** The balance a `get_or_create` hands back for `key`. */
  function BalanceFor(balances: map<(int, int), LeaveBalance>, key: (int, int)): LeaveBalance {
    if key in balances then balances[key] else DefaultBalance
  }

  /** The guard chain of `apply_leave`: casual, sick, personal and comp-off in turn, each
      compared with its own remaining figure; earned leave passes unchecked. */
  method BalanceGuard(b: LeaveBalance, t: LeaveType, days: int) returns (short: bool, available: real)
    ensures short == Short(b, t, days)
    ensures short ==> available == Available(b, t)
  {
    if t == Casual && CasualRemaining(b) < days {
      return true, CasualRemaining(b) as real;
    } else if t == Sick && SickRemaining(b) < days {
      return true, SickRemaining(b) as real;
    } else if t == Personal && PersonalRemaining(b) < days {
      return true, PersonalRemaining(b) as real;
    } else if t == CompOff && b.compOffBalance < days as real {
      return true, b.compOffBalance;
    }
    return false, 0.0;
  }

  datatype ApplyOutcome =
    | InvalidInput
    | Insufficient(leaveType: LeaveType, available: real)
    | Submitted(pk: int, analysis: Sentiment.LeaveSentiment, recommendations: seq<string>)

  datatype DecisionOutcome = NotFound | NotPending | BalanceMissing | Decided

  /**
   * The leave tables: requests in insertion order (primary key = position +
   * 1) and balances keyed by (employee, year), the pair the table keeps
   * unique.
   */
  class LeaveStore {
    var requests: seq<LeaveRequest>
    var balances: map<(int, int), LeaveBalance>

    constructor (requests: seq<LeaveRequest>, balances: map<(int, int), LeaveBalance>)
      ensures this.requests == requests && this.balances == balances
    {
      this.requests := requests;
      this.balances := balances;
    }

    /** `LeaveBalance.objects.get_or_create(employee=…, year=…)`: the stored row, or a new
        default row that is stored first. */
    method GetOrCreateBalance(employee: int, year: int) returns (b: LeaveBalance)
      modifies this
      ensures b == BalanceFor(old(balances), (employee, year))
      ensures balances == old(balances)[(employee, year) := b]
      ensures requests == old(requests)
    {
      var key := (employee, year);
      if key !in balances {
        balances := balances[key := DefaultBalance];
      }
      b := balances[key];
    }

    /**
     * `apply_leave`. Invalid input changes nothing. Otherwise the balance of
     * the applicant for the current year is fetched or created (it stays
     * created even when the check then fails); a type whose available days
     * fall short of the inclusive day count is refused; anything else is
     * stored as a new pending request and answered with the sentiment
     * analysis and its recommendations.
     */
    method ApplyLeave(user: int, inp: LeaveInput, today: CalendarDate, polarity: real, subjectivity: real, uuidHex: string)
      returns (outcome: ApplyOutcome)
      requires IsUuidHex(uuidHex)
      modifies this
      ensures !InputValid(inp) ==> outcome == InvalidInput && requests == old(requests) && balances == old(balances)
      ensures InputValid(inp) ==>
                var key := (user, today.year);
                var b := BalanceFor(old(balances), key);
                var t := ParseType(inp.leaveType).value;
                var days := DaysCount(inp.startDate.value, inp.endDate.value);
                balances == old(balances)[key := b]
                && (Short(b, t, days) ==> outcome == Insufficient(t, Available(b, t)) && requests == old(requests))
                && (!Short(b, t, days) ==>
                      var r := NewRequest(user, inp, polarity, subjectivity, uuidHex);
                      requests == old(requests) + [r]
                      && outcome.Submitted? && outcome.pk == |requests|
                      && outcome.analysis == Sentiment.AnalyzeLeaveSentiment(r.reason, polarity, subjectivity)
                      && outcome.recommendations == Sentiment.RecommendationsFor(outcome.analysis))
    {
      if !InputValid(inp) {
        return InvalidInput;
      }
      var t := ParseType(inp.leaveType).value;
      var days := DaysCount(inp.startDate.value, inp.endDate.value);
      var b := GetOrCreateBalance(user, today.year);
      var short, available := BalanceGuard(b, t, days);
      if short {
        return Insufficient(t, available);
      }
      outcome := Store(user, inp, polarity, subjectivity, uuidHex);
    }

    /** The last step of `apply_leave`: the new request is stored and answered with its
        sentiment analysis and the recommendations for it. */
    method Store(user: int, inp: LeaveInput, polarity: real, subjectivity: real, uuidHex: string)
      returns (outcome: ApplyOutcome)
      requires InputValid(inp) && IsUuidHex(uuidHex)
      modifies this
      ensures var r := NewRequest(user, inp, polarity, subjectivity, uuidHex);
              requests == old(requests) + [r] && balances == old(balances)
              && outcome.Submitted? && outcome.pk == |requests|
              && outcome.analysis == Sentiment.AnalyzeLeaveSentiment(r.reason, polarity, subjectivity)
              && outcome.recommendations == Sentiment.RecommendationsFor(outcome.analysis)
    {
      var r := NewRequest(user, inp, polarity, subjectivity, uuidHex);
      var analysis := Sentiment.AnalyzeLeaveSentiment(r.reason, polarity, subjectivity);
      requests := requests + [r];
      var recommendations := Sentiment.GetSentimentRecommendation(analysis);
      outcome := Submitted(|requests|, analysis, recommendations);
    }

    /**
     * `approve_leave`: an unknown id is not found and a request that is not
     * pending is refused, both with no change. The balance of the employee
     * for the start date's year must already exist (a missing one aborts the
     * request with nothing saved); the day count is debited from the type's
     * counter with no check, and the request becomes approved by `approver`.
     */
    method ApproveLeave(pk: int, approver: int) returns (outcome: DecisionOutcome)
      modifies this
      ensures !(1 <= pk <= |old(requests)|) ==>
                outcome == NotFound && requests == old(requests) && balances == old(balances)
      ensures 1 <= pk <= |old(requests)| && old(requests)[pk - 1].status != Pending ==>
                outcome == NotPending && requests == old(requests) && balances == old(balances)
      ensures 1 <= pk <= |old(requests)| && old(requests)[pk - 1].status == Pending ==>
                var r := old(requests)[pk - 1];
                var key := (r.employee, r.startDate.year);
                (key !in old(balances) ==>
                   outcome == BalanceMissing && requests == old(requests) && balances == old(balances))
                && (key in old(balances) ==>
                   outcome == Decided
                   && balances == old(balances)[key := Debit(old(balances)[key], r.leaveType, DaysCount(r.startDate, r.endDate))]
                   && requests == old(requests)[pk - 1 := r.(status := Approved, approvedBy := Some(approver))])
    {
      if !(1 <= pk <= |requests|) {
        return NotFound;
      }
      var r := requests[pk - 1];
      if r.status != Pending {
        return NotPending;
      }
      var key := (r.employee, r.startDate.year);
      if key !in balances {
        return BalanceMissing;
      }
      var b := balances[key];
      var days := DaysCount(r.startDate, r.endDate);
      match r.leaveType {
        case Casual => b := b.(casualUsed := b.casualUsed + days);
        case Sick => b := b.(sickUsed := b.sickUsed + days);
        case Personal => b := b.(personalUsed := b.personalUsed + days);
        case Earned => b := b.(earnedUsed := b.earnedUsed + days);
        case CompOff => b := b.(compOffBalance := b.compOffBalance - days as real);
      }
      balances := balances[key := b];
      requests := requests[pk - 1 := r.(status := Approved, approvedBy := Some(approver))];
      outcome := Decided;
    }

    /**
     * `reject_leave`: the same not-found and not-pending answers; otherwise the
     * request becomes rejected with `approver` recorded, and no balance moves.
     */
    method RejectLeave(pk: int, approver: int) returns (outcome: DecisionOutcome)
      modifies this
      ensures balances == old(balances)
      ensures !(1 <= pk <= |old(requests)|) ==> outcome == NotFound && requests == old(requests)
      ensures 1 <= pk <= |old(requests)| && old(requests)[pk - 1].status != Pending ==>
                outcome == NotPending && requests == old(requests)
      ensures 1 <= pk <= |old(requests)| && old(requests)[pk - 1].status == Pending ==>
                outcome == Decided
                && requests == old(requests)[pk - 1 := old(requests)[pk - 1].(status := Rejected, approvedBy := Some(approver))]
    {
      if !(1 <= pk <= |requests|) {
        return NotFound;
      }
      var r := requests[pk - 1];
      if r.status != Pending {
        return NotPending;
      }
      requests := requests[pk - 1 := r.(status := Rejected, approvedBy := Some(approver))];
      outcome := Decided;
    }
  }
}
