/**
 * The payroll page of the web front end (`src/components/payroll/PayrollPage.jsx`):
 * payruns holding their employees' payslips, the two ways of validating a
 * payslip (from the opened payslip and from the payrun table), the tabs
 * that list pending and validated payruns, and the payslip totals.
 */
module PayrollPageUi {
  import opened Common

  const Pending := "pending"
  const Done := "done"
  const PayrunTab := "payrun"
  const ValidateTab := "validate"

  /** A payslip line of a payrun. */
  datatype PayrunEmployee = PayrunEmployee(name: string, grossWage: real, netWage: real, status: string)

  datatype Payrun = Payrun(period: string, gross: real, net: real, status: string, employees: seq<PayrunEmployee>)

  predicate AllDone(employees: seq<PayrunEmployee>) {
    forall k :: 0 <= k < |employees| ==> employees[k].status == Done
  }

  /** The status a payrun is given after a validation: done exactly when every payslip in it is. */
  function StatusFor(employees: seq<PayrunEmployee>): (s: string)
    ensures s == Done <==> AllDone(employees)
    ensures s == Pending <==> !AllDone(employees)
  {
    if AllDone(employees) then Done else Pending
  }

  /** Every payslip of that name becomes done; the others are as they were. */
  function ValidateEmployees(employees: seq<PayrunEmployee>, name: string): (r: seq<PayrunEmployee>)
    ensures |r| == |employees|
    ensures forall k :: 0 <= k < |r| ==>
              r[k] == if employees[k].name == name then employees[k].(status := Done) else employees[k]
  {
    seq(|employees|, k requires 0 <= k < |employees| =>
      if employees[k].name == name then employees[k].(status := Done) else employees[k])
  }

  /** Validating a payslip that is already done changes nothing. */
  lemma ValidatingTwiceChangesNothing(employees: seq<PayrunEmployee>, name: string)
    ensures ValidateEmployees(ValidateEmployees(employees, name), name) == ValidateEmployees(employees, name)
  {
  }

  /** When the named payslips are the only ones left to validate, validating them completes the payrun. */
  lemma LastValidationCompletes(employees: seq<PayrunEmployee>, name: string)
    requires forall k :: 0 <= k < |employees| && employees[k].name != name ==> employees[k].status == Done
    ensures StatusFor(ValidateEmployees(employees, name)) == Done
  {
  }

  /** A payrun's status agrees with its payslips. */
  predicate Consistent(p: Payrun) {
    p.status == StatusFor(p.employees)
  }

  /** The first payrun with that period, if any (`payruns.find`). */
  function FindPeriod(payruns: seq<Payrun>, period: string): (i: Option<nat>)
    ensures i.Some? ==> i.value < |payruns| && payruns[i.value].period == period
                        && forall k :: 0 <= k < i.value ==> payruns[k].period != period
    ensures i.None? ==> forall k :: 0 <= k < |payruns| ==> payruns[k].period != period
  {
    if payruns == [] then None
    else if payruns[0].period == period then Some(0)
    else
      var r := FindPeriod(payruns[1..], period);
      if r.Some? then Some(r.value + 1) else None
  }

  /** `filteredPayruns`: the pending payruns on the Payrun tab, the done ones on any other, in their order. */
  function Filtered(payruns: seq<Payrun>, view: string): (r: seq<Payrun>)
    ensures forall p :: p in r <==> p in payruns && p.status == (if view == PayrunTab then Pending else Done)
  {
    if payruns == [] then []
    else
      var rest := Filtered(payruns[1..], view);
      if payruns[0].status == (if view == PayrunTab then Pending else Done) then [payruns[0]] + rest else rest
  }

  /** The totals shown on a payslip: `reduce` over the allowances and over the deductions. */
  function NetAmount(allowances: seq<real>, deductions: seq<real>): (net: real)
    ensures net + SumReals(deductions) == SumReals(allowances)
  {
    SumReals(allowances) - SumReals(deductions)
  }

  /** The payslip's components: six allowances, and the employee's PF, the employer's PF and professional tax as deductions. */
  const Allowances: seq<real> := [25000.0, 12500.0, 4167.0, 2082.5, 2082.5, 4168.0]
  const Deductions: seq<real> := [3000.0, 3000.0, 200.0]

  /** The shown payslip: 50000 gross, 6200 deducted (the employer's PF included), 43800 net. */
  lemma ShownPayslipTotals()
    ensures SumReals(Allowances) == 50000.0
    ensures SumReals(Deductions) == 6200.0
    ensures NetAmount(Allowances, Deductions) == 43800.0
  {
    var a := Allowances;
    assert a[..1][..0] == [] && a[..2][..1] == a[..1] && a[..3][..2] == a[..2];
    assert a[..4][..3] == a[..3] && a[..5][..4] == a[..4] && a[..6] == a && a[..6][..5] == a[..5];
    assert SumReals(a[..1]) == 25000.0;
    assert SumReals(a[..2]) == 37500.0;
    assert SumReals(a[..3]) == 41667.0;
    assert SumReals(a[..4]) == 43749.5;
    assert SumReals(a[..5]) == 45832.0;
    var d := Deductions;
    assert d[..1][..0] == [] && d[..2][..1] == d[..1] && d[..3] == d && d[..3][..2] == d[..2];
    assert SumReals(d[..1]) == 3000.0;
    assert SumReals(d[..2]) == 6000.0;
  }

  /** `prevPayruns.map(...)` of `handleValidate`: each payrun of the period validates its own payslips of that name. */
  function ValidateInPeriod(payruns: seq<Payrun>, period: string, name: string): (r: seq<Payrun>)
    ensures |r| == |payruns|
    ensures forall k :: 0 <= k < |r| ==>
              r[k] == if payruns[k].period == period
                      then var e := ValidateEmployees(payruns[k].employees, name);
                           payruns[k].(employees := e, status := StatusFor(e))
                      else payruns[k]
  {
    seq(|payruns|, k requires 0 <= k < |payruns| =>
      if payruns[k].period == period
      then var e := ValidateEmployees(payruns[k].employees, name);
           payruns[k].(employees := e, status := if AllDone(e) then Done else Pending)
      else payruns[k])
  }

  /** `prevPayruns.map(...)` of `handleValidateFromTable`: every payrun of the period gets the one validated list. */
  function StoreInPeriod(payruns: seq<Payrun>, period: string, employees: seq<PayrunEmployee>): (r: seq<Payrun>)
    ensures |r| == |payruns|
    ensures forall k :: 0 <= k < |r| ==>
              r[k] == if payruns[k].period == period
                      then payruns[k].(employees := employees, status := StatusFor(employees))
                      else payruns[k]
  {
    seq(|payruns|, k requires 0 <= k < |payruns| =>
      if payruns[k].period == period
      then payruns[k].(employees := employees, status := if AllDone(employees) then Done else Pending)
      else payruns[k])
  }

  /** The payroll page state. */
  class PayrollPage {
    var payruns: seq<Payrun>
    var selectedPayslip: Option<string>
    var selectedPayrunPeriod: Option<string>
    var payrunView: string

    /** Every payrun is done exactly when all its payslips are. */
    predicate Valid()
      reads this
    {
      forall k :: 0 <= k < |payruns| ==> Consistent(payruns[k])
    }

    constructor(payruns: seq<Payrun>)
      requires forall k :: 0 <= k < |payruns| ==> Consistent(payruns[k])
      ensures Valid() && this.payruns == payruns
      ensures selectedPayslip == None && selectedPayrunPeriod == None && payrunView == PayrunTab
    {
      this.payruns := payruns;
      selectedPayslip := None;
      selectedPayrunPeriod := None;
      payrunView := PayrunTab;
    }

    /** Opening a payslip of a payrun. */
    method Open(name: string, period: string)
      modifies this
      ensures selectedPayslip == Some(name) && selectedPayrunPeriod == Some(period)
      ensures payruns == old(payruns) && payrunView == old(payrunView)
    {
      selectedPayslip := Some(name);
      selectedPayrunPeriod := Some(period);
    }

    /**
     * `handleValidate`, with its delayed part done: without an open payslip
     * nothing happens; otherwise in every payrun of the selected period the
     * payslips of the selected name become done and the payrun's status is
     * worked out again, other payruns are untouched, and the page returns
     * to the Validate tab with nothing selected.
     */
    method Validate()
      requires Valid()
      modifies this
      ensures Valid()
      ensures old(selectedPayslip).None? || old(selectedPayrunPeriod).None? ==>
                payruns == old(payruns) && selectedPayslip == old(selectedPayslip)
                && selectedPayrunPeriod == old(selectedPayrunPeriod) && payrunView == old(payrunView)
      ensures old(selectedPayslip).Some? && old(selectedPayrunPeriod).Some? ==>
                payruns == ValidateInPeriod(old(payruns), old(selectedPayrunPeriod).value, old(selectedPayslip).value)
                && selectedPayslip.None? && selectedPayrunPeriod.None? && payrunView == ValidateTab
    {
      if selectedPayslip.None? || selectedPayrunPeriod.None? {
        return;
      }
      payruns := ValidateInPeriod(payruns, selectedPayrunPeriod.value, selectedPayslip.value);
      selectedPayslip := None;
      selectedPayrunPeriod := None;
      payrunView := ValidateTab;
    }

    /**
     * `handleValidateFromTable`: an unknown period changes nothing.
     * Otherwise the payslips of the first payrun with that period are
     * validated, that list and the status it gives are stored in every
     * payrun of the period, and the page moves to the Validate tab when
     * the payrun is complete.
     */
    method ValidateFromTable(name: string, period: string)
      requires Valid()
      modifies this
      ensures Valid()
      ensures selectedPayslip == old(selectedPayslip) && selectedPayrunPeriod == old(selectedPayrunPeriod)
      ensures FindPeriod(old(payruns), period).None? ==> payruns == old(payruns) && payrunView == old(payrunView)
      ensures FindPeriod(old(payruns), period).Some? ==>
                var e := ValidateEmployees(old(payruns)[FindPeriod(old(payruns), period).value].employees, name);
                payruns == StoreInPeriod(old(payruns), period, e)
                && payrunView == (if AllDone(e) then ValidateTab else old(payrunView))
    {
      var found := FindPeriod(payruns, period);
      if found.None? {
        return;
      }
      var e := ValidateEmployees(payruns[found.value].employees, name);
      payruns := StoreInPeriod(payruns, period, e);
      if AllDone(e) {
        payrunView := ValidateTab;
      }
    }
  }
}
