/**
 * The background task that fills a payrun with draft payslips: one per
 * active employee, paid in proportion to the present days of the payrun's
 * month over 26, with allowances taken from each employee's own HRA and DA
 * percentages. The task has no check for payslips it made before.
 */
module PayrunTask {
  import opened Common
  import opened HrRecords
  import Payroll

  /** The payrun row the task reads and updates. */
  datatype Payrun = Payrun(month: int, year: int, totalEmployees: nat, status: string)

  /** A payslip as the task creates it. */
  datatype TaskPayslip = TaskPayslip(
    payrun: int,
    employee: int,
    basic: real,
    hra: real,
    da: real,
    gross: real,
    pf: real,
    professionalTax: real,
    totalDeductions: real,
    net: real,
    workingDays: nat,
    daysWorked: nat,
    leavesTaken: nat,
    status: string)

  /**
   * The payslip the task creates for one employee: gross is stored in full,
   * and net is gross scaled by present days over 26, less 12% provident fund
   * and the fixed professional tax.
   */
  function PayslipFor(payrunId: int, p: Payrun, e: UserRecord, attendance: seq<AttendanceRow>): (s: TaskPayslip)
    ensures s.payrun == payrunId && s.employee == e.id && s.status == "draft"
    ensures s.workingDays == 26
    ensures s.gross == GrossSalary(e.basicSalary, e.hraPercentage, e.daPercentage)
    ensures s.totalDeductions == e.basicSalary * 0.12 + Payroll.ProfessionalTax
    ensures s.net == s.gross * (s.daysWorked as real) / 26.0 - s.totalDeductions
    ensures s.daysWorked == CountInMonth(attendance, e.id, p.month, p.year, StatusPresent)
    ensures s.leavesTaken == CountInMonth(attendance, e.id, p.month, p.year, StatusLeave)
  {
    var days := CountInMonth(attendance, e.id, p.month, p.year, StatusPresent);
    var leaves := CountInMonth(attendance, e.id, p.month, p.year, StatusLeave);
    var basic := e.basicSalary;
    var hra := basic * (e.hraPercentage / 100.0);
    var da := basic * (e.daPercentage / 100.0);
    var gross := basic + hra + da;
    var pf := basic * 0.12;
    var total := pf + Payroll.ProfessionalTax;
    var net := gross * (days as real) / (Payroll.StandardWorkingDays as real) - total;
    TaskPayslip(payrunId, e.id, basic, hra, da, gross, pf, Payroll.ProfessionalTax, total, net,
                Payroll.StandardWorkingDays, days, leaves, "draft")
  }

  /** Nothing caps the attendance factor: more than 26 present days pay more than the full gross. */
  lemma NetNotCappedAtFullMonth(payrunId: int, p: Payrun, e: UserRecord, attendance: seq<AttendanceRow>)
    requires GrossSalary(e.basicSalary, e.hraPercentage, e.daPercentage) > 0.0
    requires CountInMonth(attendance, e.id, p.month, p.year, StatusPresent) > 26
    ensures var s := PayslipFor(payrunId, p, e, attendance);
            s.net > s.gross - s.totalDeductions
  {
    var s := PayslipFor(payrunId, p, e, attendance);
    var g, d := s.gross, s.daysWorked as real;
    assert g > 0.0 && d > 26.0;
    ScaledPastFullMonth(g, d);
    assert s.net == g * d / 26.0 - s.totalDeductions;
  }

  lemma ScaledPastFullMonth(g: real, d: real)
    requires g > 0.0 && d > 26.0
    ensures g * d / 26.0 > g
  {
    assert g * d > g * 26.0;
  }

  /** With 40% HRA and 20% DA and at most 26 present days, the task's net pay formula gives
      what `calculate_payroll` gives; the default DA of 50% makes them differ. */
  lemma AgreesWithViewCalculation(basic: real, daysWorked: nat)
    requires daysWorked <= 26
    ensures GrossSalary(basic, 40.0, 20.0) * (daysWorked as real) / 26.0 - (basic * 0.12 + Payroll.ProfessionalTax)
            == Payroll.CalculatePayroll(basic, daysWorked).net
  {
    var full := Payroll.FullGross(basic);
    ScaleBySameDays(GrossSalary(basic, 40.0, 20.0), full, daysWorked as real, daysWorked as real);
    if daysWorked == 26 {
      assert full * (daysWorked as real) / 26.0 == full;
    }
  }

  lemma ScaleBySameDays(a: real, b: real, x: real, y: real)
    requires a == b && x == y
    ensures a * x / 26.0 == b * y / 26.0
  {
  }

  /** The payslips for a list of employees, in list order. */
  function Batch(payrunId: int, p: Payrun, emps: seq<UserRecord>, attendance: seq<AttendanceRow>): (b: seq<TaskPayslip>)
    ensures |b| == |emps|
    ensures forall k :: 0 <= k < |emps| ==> b[k] == PayslipFor(payrunId, p, emps[k], attendance)
  {
    if emps == [] then []
    else Batch(payrunId, p, emps[..|emps| - 1], attendance) + [PayslipFor(payrunId, p, emps[|emps| - 1], attendance)]
  }

  /** Payslips in `slips` for one employee in one payrun. */
  function CountFor(slips: seq<TaskPayslip>, payrunId: int, employee: int): nat {
    if slips == [] then 0
    else CountFor(slips[..|slips| - 1], payrunId, employee)
         + (if slips[|slips| - 1].payrun == payrunId && slips[|slips| - 1].employee == employee then 1 else 0)
  }

  lemma {:induction false} CountForAppend(a: seq<TaskPayslip>, b: seq<TaskPayslip>, payrunId: int, employee: int)
    ensures CountFor(a + b, payrunId, employee) == CountFor(a, payrunId, employee) + CountFor(b, payrunId, employee)
    decreases |b|
  {
    if b == [] {
      assert a + b == a;
    } else {
      CountForAppend(a, b[..|b| - 1], payrunId, employee);
      assert (a + b)[..|a + b| - 1] == a + b[..|b| - 1];
    }
  }

  predicate DistinctIds(emps: seq<UserRecord>) {
    forall i, j :: 0 <= i < j < |emps| ==> emps[i].id != emps[j].id
  }

  /** A batch over distinct employees holds exactly one payslip per listed employee. */
  lemma {:induction false} BatchOnePerEmployee(payrunId: int, p: Payrun, emps: seq<UserRecord>,
                                               attendance: seq<AttendanceRow>, employee: int)
    requires DistinctIds(emps)
    ensures CountFor(Batch(payrunId, p, emps, attendance), payrunId, employee)
            == if exists e :: e in emps && e.id == employee then 1 else 0
    decreases |emps|
  {
    if emps != [] {
      var init := emps[..|emps| - 1];
      BatchOnePerEmployee(payrunId, p, init, attendance, employee);
      BatchCountStep(payrunId, p, emps, attendance, employee);
      LastIdIsNew(emps);
      assert forall e :: e in emps <==> e in init || e == emps[|emps| - 1];
    }
  }

  lemma BatchCountStep(payrunId: int, p: Payrun, emps: seq<UserRecord>, attendance: seq<AttendanceRow>, employee: int)
    requires emps != []
    ensures CountFor(Batch(payrunId, p, emps, attendance), payrunId, employee)
            == CountFor(Batch(payrunId, p, emps[..|emps| - 1], attendance), payrunId, employee)
               + (if emps[|emps| - 1].id == employee then 1 else 0)
  {
    var b := Batch(payrunId, p, emps, attendance);
    assert b[..|b| - 1] == Batch(payrunId, p, emps[..|emps| - 1], attendance);
  }

  lemma LastIdIsNew(emps: seq<UserRecord>)
    requires emps != [] && DistinctIds(emps)
    ensures forall e :: e in emps[..|emps| - 1] ==> e.id != emps[|emps| - 1].id
  {
    forall e | e in emps[..|emps| - 1] ensures e.id != emps[|emps| - 1].id {
      var k :| 0 <= k < |emps| - 1 && emps[k] == e;
    }
  }

  /** The payruns and payslips tables. */
  class PayrunStore {
    var payruns: map<int, Payrun>
    var payslips: seq<TaskPayslip>

    constructor (payruns: map<int, Payrun>)
      ensures this.payruns == payruns && payslips == []
    {
      this.payruns := payruns;
      payslips := [];
    }

    /**
     * `generate_payslips_for_payrun`: a payrun id that is not in the table
     * ends in the error message and changes nothing; otherwise every active
     * employee gets a draft payslip, the payrun records how many and moves to
     * `processing`, and the message reports the number.
     */
    method GeneratePayslipsForPayrun(payrunId: int, users: seq<UserRecord>, attendance: seq<AttendanceRow>)
      returns (message: string)
      modifies this
      ensures payrunId !in old(payruns) ==>
                message == "Error: Payrun matching query does not exist."
                && payruns == old(payruns) && payslips == old(payslips)
      ensures payrunId in old(payruns) ==>
                var p := old(payruns)[payrunId];
                var emps := ActiveEmployees(users);
                payslips == old(payslips) + Batch(payrunId, p, emps, attendance)
                && payruns == old(payruns)[payrunId := p.(totalEmployees := |emps|, status := "processing")]
                && message == "Generated " + IntToString(|emps|) + " payslips"
    {
      if payrunId !in payruns {
        return "Error: Payrun matching query does not exist.";
      }
      var p := payruns[payrunId];
      var employees := ActiveEmployees(users);
      var created := 0;
      while created < |employees|
        invariant 0 <= created <= |employees|
        invariant payruns == old(payruns)
        invariant payslips == old(payslips) + Batch(payrunId, p, employees[..created], attendance)
      {
        assert employees[..created + 1][..created] == employees[..created];
        payslips := payslips + [PayslipFor(payrunId, p, employees[created], attendance)];
        created := created + 1;
      }
      assert employees[..created] == employees;
      payruns := payruns[payrunId := p.(totalEmployees := created, status := "processing")];
      message := "Generated " + IntToString(created) + " payslips";
    }
  }

  /** Running the task twice on the same payrun leaves two payslips for each active employee. */
  lemma RerunDuplicates(payrunId: int, p: Payrun, users: seq<UserRecord>, attendance: seq<AttendanceRow>,
                        before: seq<TaskPayslip>, e: UserRecord)
    requires DistinctIds(ActiveEmployees(users)) && e in ActiveEmployees(users)
    requires CountFor(before, payrunId, e.id) == 0
    ensures var b := Batch(payrunId, p, ActiveEmployees(users), attendance);
            CountFor(before + b + b, payrunId, e.id) == 2
  {
    var b := Batch(payrunId, p, ActiveEmployees(users), attendance);
    BatchOnePerEmployee(payrunId, p, ActiveEmployees(users), attendance, e.id);
    CountForAppend(before, b, payrunId, e.id);
    CountForAppend(before + b, b, payrunId, e.id);
  }
}
