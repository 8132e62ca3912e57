/**
 * The payroll pages of the second front end (`Prod/src/components/payroll/`):
 * the editable payslip and its totals, the three-step payroll wizard and the
 * leave-request approval table.
 */
module PayslipUi {
  /** The figures of a payslip; the money amounts are JavaScript numbers. */
  datatype PayslipData = PayslipData(employeeId: string, employeeName: string, designation: string, department: string,
                                     payPeriod: string, payDate: string, bankAccount: string,
                                     basicSalary: real, housingAllowance: real, transportAllowance: real, bonus: real,
                                     providentFund: real, professionalTax: real, leaveDeductions: real)

  datatype Totals = Totals(totalEarnings: real, totalDeductions: real, netPay: real)

  /** The numeric inputs of the editable view. */
  datatype Amount = BasicSalary | HousingAllowance | TransportAllowance | Bonus
                  | ProvidentFund | ProfessionalTax | LeaveDeductions

  /** The text inputs of the editable view; the id, the period and the pay date are not editable. */
  datatype Detail = EmployeeName | Designation | Department

  predicate IsEarning(a: Amount) {
    a in {BasicSalary, HousingAllowance, TransportAllowance, Bonus}
  }

  function AmountOf(d: PayslipData, a: Amount): real {
    match a
    case BasicSalary => d.basicSalary
    case HousingAllowance => d.housingAllowance
    case TransportAllowance => d.transportAllowance
    case Bonus => d.bonus
    case ProvidentFund => d.providentFund
    case ProfessionalTax => d.professionalTax
    case LeaveDeductions => d.leaveDeductions
  }

  function WithAmount(d: PayslipData, a: Amount, v: real): (r: PayslipData)
    ensures AmountOf(r, a) == v
    ensures forall b :: b != a ==> AmountOf(r, b) == AmountOf(d, b)
    ensures r.employeeId == d.employeeId && r.employeeName == d.employeeName && r.payPeriod == d.payPeriod
  {
    match a
    case BasicSalary => d.(basicSalary := v)
    case HousingAllowance => d.(housingAllowance := v)
    case TransportAllowance => d.(transportAllowance := v)
    case Bonus => d.(bonus := v)
    case ProvidentFund => d.(providentFund := v)
    case ProfessionalTax => d.(professionalTax := v)
    case LeaveDeductions => d.(leaveDeductions := v)
  }

  function WithDetail(d: PayslipData, field: Detail, v: string): (r: PayslipData)
    ensures forall b :: AmountOf(r, b) == AmountOf(d, b)
    ensures r.employeeId == d.employeeId && r.payPeriod == d.payPeriod && r.payDate == d.payDate
  {
    match field
    case EmployeeName => d.(employeeName := v)
    case Designation => d.(designation := v)
    case Department => d.(department := v)
  }

  /** `calculateTotals`: the earnings are the four earning amounts, the deductions the other three, and the net pay what is left. */
  function CalculateTotals(d: PayslipData): (t: Totals)
    ensures t.totalEarnings == AmountOf(d, BasicSalary) + AmountOf(d, HousingAllowance)
                               + AmountOf(d, TransportAllowance) + AmountOf(d, Bonus)
    ensures t.totalDeductions == AmountOf(d, ProvidentFund) + AmountOf(d, ProfessionalTax) + AmountOf(d, LeaveDeductions)
    ensures t.netPay + t.totalDeductions == t.totalEarnings
  {
    var earnings := d.basicSalary + d.housingAllowance + d.transportAllowance + d.bonus;
    var deductions := d.providentFund + d.professionalTax + d.leaveDeductions;
    Totals(earnings, deductions, earnings - deductions)
  }

  /**
   * Changing one amount by `delta` moves the net pay by `delta` for an
   * earning and by `-delta` for a deduction, and moves only the total the
   * amount belongs to.
   */
  lemma ChangeMovesNetPay(d: PayslipData, a: Amount, delta: real)
    ensures var before, after := CalculateTotals(d), CalculateTotals(WithAmount(d, a, AmountOf(d, a) + delta));
            (IsEarning(a) ==> after.netPay == before.netPay + delta && after.totalDeductions == before.totalDeductions)
            && (!IsEarning(a) ==> after.netPay == before.netPay - delta && after.totalEarnings == before.totalEarnings)
  {
    var d' := WithAmount(d, a, AmountOf(d, a) + delta);
    assert forall b :: b != a ==> AmountOf(d', b) == AmountOf(d, b);
  }

  /** The payslip the page opens with. */
  const Sample := PayslipData("WZ-1234", "Sarah Johnson", "Senior Software Engineer", "Engineering",
                              "November 2025", "2025-11-30", "XXXX-XXXX-1234",
                              5000.0, 1000.0, 500.0, 250.0, 500.0, 200.0, 0.0)

  /** It shows 6750 earned, 700 deducted and 6050 net. */
  lemma SampleTotals()
    ensures CalculateTotals(Sample) == Totals(6750.0, 700.0, 6050.0)
  {
  }

  /** The payslip page. */
  class PayslipPage {
    var isEditing: bool
    var payslipData: PayslipData

    constructor()
      ensures !isEditing && payslipData == Sample
    {
      isEditing := false;
      payslipData := Sample;
    }

    /** The totals on show, always those of the current figures. */
    function Shown(): (t: Totals)
      reads this
      ensures t.netPay == t.totalEarnings - t.totalDeductions
    {
      CalculateTotals(payslipData)
    }

    /** "Edit Payslip". */
    method StartEditing()
      modifies this
      ensures isEditing && payslipData == old(payslipData)
    {
      isEditing := true;
    }

    /** Typing a number: the figure changes at once, and so do the totals. */
    method EditAmount(a: Amount, value: real)
      requires isEditing
      modifies this
      ensures isEditing && payslipData == WithAmount(old(payslipData), a, value)
      ensures IsEarning(a) ==> Shown().netPay == old(Shown().netPay) + (value - AmountOf(old(payslipData), a))
      ensures !IsEarning(a) ==> Shown().netPay == old(Shown().netPay) - (value - AmountOf(old(payslipData), a))
    {
      ChangeMovesNetPay(payslipData, a, value - AmountOf(payslipData, a));
      payslipData := WithAmount(payslipData, a, value);
    }

    /** Typing a name, designation or department. */
    method EditDetail(field: Detail, value: string)
      requires isEditing
      modifies this
      ensures isEditing && payslipData == WithDetail(old(payslipData), field, value)
      ensures Shown() == old(Shown())
    {
      payslipData := WithDetail(payslipData, field, value);
    }

    /** `handleSave`: leaves edit mode; the figures are those already typed. */
    method Save()
      modifies this
      ensures !isEditing && payslipData == old(payslipData)
    {
      isEditing := false;
    }

    /** "Cancel" also only leaves edit mode: what was typed stays. */
    method Cancel()
      modifies this
      ensures !isEditing && payslipData == old(payslipData)
    {
      isEditing := false;
    }
  }
}

/** The three-step wizard of `GeneratePayroll.tsx`. */
module PayrollWizard {
  const Steps: nat := 3

  /** Step `step` of the indicator is ticked once the wizard has moved past it. */
  function Completed(currentStep: nat, step: nat): (done: bool)
    ensures done <==> step < currentStep
  {
    currentStep > step
  }

  /** Step `step` of the indicator is highlighted when reached. */
  function Reached(currentStep: nat, step: nat): (reached: bool)
    ensures reached <==> step <= currentStep
    ensures Completed(currentStep, step) ==> reached
  {
    currentStep >= step
  }

  class GeneratePayroll {
    var currentStep: nat
    var selectedPeriod: string

    /** The wizard is always on one of its three steps. */
    predicate Valid()
      reads this
    {
      1 <= currentStep <= Steps
    }

    constructor()
      ensures Valid() && currentStep == 1 && selectedPeriod == ""
    {
      currentStep := 1;
      selectedPeriod := "";
    }

    method SelectPeriod(period: string)
      modifies this
      ensures selectedPeriod == period && currentStep == old(currentStep)
    {
      selectedPeriod := period;
    }

    /** `handleNext`: without a period the first step alerts and stays; otherwise one step on, never past the last. */
    method Next() returns (alerted: bool)
      requires Valid()
      modifies this
      ensures Valid() && selectedPeriod == old(selectedPeriod)
      ensures alerted <==> old(currentStep) == 1 && selectedPeriod == ""
      ensures alerted ==> currentStep == old(currentStep)
      ensures !alerted ==> currentStep == if old(currentStep) < Steps then old(currentStep) + 1 else old(currentStep)
    {
      if currentStep == 1 && selectedPeriod == "" {
        return true;
      }
      if currentStep < Steps {
        currentStep := currentStep + 1;
      }
      alerted := false;
    }

    /** `handleBack`: one step back, never before the first. */
    method Back()
      requires Valid()
      modifies this
      ensures Valid() && selectedPeriod == old(selectedPeriod)
      ensures currentStep == if old(currentStep) > 1 then old(currentStep) - 1 else old(currentStep)
    {
      if currentStep > 1 {
        currentStep := currentStep - 1;
      }
    }

    /** `handleRunPayroll`: back to the first step with no period chosen. */
    method RunPayroll()
      modifies this
      ensures Valid() && currentStep == 1 && selectedPeriod == ""
    {
      currentStep := 1;
      selectedPeriod := "";
    }
  }

  /** With a period chosen, going forward then back from the first two steps lands where it started. */
  method NextThenBack(w: GeneratePayroll)
    requires w.Valid() && w.currentStep < Steps && w.selectedPeriod != ""
    modifies w
    ensures w.Valid() && w.currentStep == old(w.currentStep) && w.selectedPeriod == old(w.selectedPeriod)
  {
    var alerted := w.Next();
    w.Back();
  }
}

/** The leave-request table of `ManageLeaveRequests.tsx`. */
module LeaveRequestsUi {
  import opened Common

  datatype Status = Pending | Approved | Rejected

  datatype LeaveRequest = LeaveRequest(id: int, employeeId: string, employeeName: string, department: string,
                                       startDate: string, endDate: string, days: int, leaveType: string,
                                       reason: string, appliedOn: string, status: Status)

  /** `requests.map(req => req.id === id ? { ...req, status } : req)`. */
  function SetStatus(requests: seq<LeaveRequest>, id: int, status: Status): (r: seq<LeaveRequest>)
    ensures |r| == |requests|
    ensures forall k :: 0 <= k < |r| ==> r[k] == if requests[k].id == id then requests[k].(status := status) else requests[k]
  {
    seq(|requests|, k requires 0 <= k < |requests| =>
      if requests[k].id == id then requests[k].(status := status) else requests[k])
  }

  function PendingRequests(requests: seq<LeaveRequest>): (r: seq<LeaveRequest>)
    ensures forall x :: x in r <==> x in requests && x.status == Pending
  {
    Keep(requests, (x: LeaveRequest) => x.status == Pending)
  }

  function ProcessedRequests(requests: seq<LeaveRequest>): (r: seq<LeaveRequest>)
    ensures forall x :: x in r <==> x in requests && x.status != Pending
  {
    Keep(requests, (x: LeaveRequest) => x.status != Pending)
  }

  function ApprovedCount(requests: seq<LeaveRequest>): nat {
    |Keep(ProcessedRequests(requests), (x: LeaveRequest) => x.status == Approved)|
  }

  function RejectedCount(requests: seq<LeaveRequest>): nat {
    |Keep(ProcessedRequests(requests), (x: LeaveRequest) => x.status == Rejected)|
  }

  /** Every request is either pending or processed, and every processed one either approved or rejected. */
  lemma {:induction false} Partition(requests: seq<LeaveRequest>)
    ensures |PendingRequests(requests)| + |ProcessedRequests(requests)| == |requests|
    ensures ApprovedCount(requests) + RejectedCount(requests) == |ProcessedRequests(requests)|
  {
    if requests != [] {
      var init, last := requests[..|requests| - 1], requests[|requests| - 1];
      assert requests == init + [last];
      Partition(init);
      KeepAppend(init, last, (x: LeaveRequest) => x.status == Pending);
      KeepAppend(init, last, (x: LeaveRequest) => x.status != Pending);
      var processed := ProcessedRequests(init);
      if last.status != Pending {
        assert ProcessedRequests(requests) == processed + [last];
        KeepAppend(processed, last, (x: LeaveRequest) => x.status == Approved);
        KeepAppend(processed, last, (x: LeaveRequest) => x.status == Rejected);
      } else {
        assert ProcessedRequests(requests) == processed;
      }
    }
  }

  /** Deciding a request takes it out of the pending list and puts it among the processed ones. */
  lemma DecidedLeavesPending(requests: seq<LeaveRequest>, id: int, status: Status)
    requires status != Pending
    ensures forall x :: x in PendingRequests(SetStatus(requests, id, status)) ==> x.id != id
    ensures forall k :: 0 <= k < |requests| && requests[k].id == id ==>
              requests[k].(status := status) in ProcessedRequests(SetStatus(requests, id, status))
  {
    var r := SetStatus(requests, id, status);
    forall k | 0 <= k < |requests| && requests[k].id == id
      ensures requests[k].(status := status) in ProcessedRequests(r)
    {
      assert r[k] == requests[k].(status := status);
    }
  }

  class ManageLeaveRequests {
    var requests: seq<LeaveRequest>
    var selectedRequest: Option<LeaveRequest>

    constructor(requests: seq<LeaveRequest>)
      ensures this.requests == requests && selectedRequest.None?
    {
      this.requests := requests;
      selectedRequest := None;
    }

    /** `handleApprove`: every request with that id is approved; nothing else changes. */
    method Approve(id: int)
      modifies this
      ensures requests == SetStatus(old(requests), id, Approved) && selectedRequest == old(selectedRequest)
    {
      requests := SetStatus(requests, id, Approved);
    }

    /** `handleReject`: every request with that id is rejected; nothing else changes. */
    method Reject(id: int)
      modifies this
      ensures requests == SetStatus(old(requests), id, Rejected) && selectedRequest == old(selectedRequest)
    {
      requests := SetStatus(requests, id, Rejected);
    }

    method View(request: LeaveRequest)
      modifies this
      ensures selectedRequest == Some(request) && requests == old(requests)
    {
      selectedRequest := Some(request);
    }
  }
}
