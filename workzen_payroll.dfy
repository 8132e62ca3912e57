/**
 * The payrun of the second back end: one row per user and month whose
 * `calculate_payroll` pays the basic salary less provident fund, the
 * professional tax and a deduction for absent days, each rounded to cents.
 */
module WorkzenPayroll {
  import opened Common

  /** Provident fund: 12% of basic, rounded to cents. */
  function ProvidentFund(basic: real): (pf: real)
    ensures IsCents(pf) && -0.005 <= pf - basic * 0.12 <= 0.005
  {
    RoundHalfEven2(basic * 0.12)
  }

  /** Pay for one working day: basic over the month's working days. */
  function DayRate(basic: real, workingDays: int): (rate: real)
    requires workingDays != 0
    ensures rate * (workingDays as real) == basic
  {
    basic / (workingDays as real)
  }

  /** Deduction for absent days: the day rate times the absent days, rounded to cents. */
  function AbsentDeduction(basic: real, workingDays: int, absentDays: int): (d: real)
    requires workingDays != 0
    ensures IsCents(d)
  {
    RoundHalfEven2(DayRate(basic, workingDays) * (absentDays as real))
  }

  /** Net pay for a payrun's figures. */
  function PayrunNet(basic: real, workingDays: int, absentDays: int, professionalTax: real): real
    requires workingDays != 0
  {
    basic - (ProvidentFund(basic) + professionalTax + AbsentDeduction(basic, workingDays, absentDays))
  }

  /** No absent days, no absence deduction. */
  lemma FullAttendanceNet(basic: real, workingDays: int, professionalTax: real)
    requires workingDays != 0
    ensures PayrunNet(basic, workingDays, 0, professionalTax) == basic - ProvidentFund(basic) - professionalTax
  {
    RoundHalfEven2Exact(0.0);
  }

  /** Each further absent day can only lower net pay (for a positive month length and basic). */
  lemma NetFallsWithAbsence(basic: real, workingDays: int, a1: int, a2: int, professionalTax: real)
    requires workingDays > 0 && basic >= 0.0 && a1 <= a2
    ensures PayrunNet(basic, workingDays, a2, professionalTax) <= PayrunNet(basic, workingDays, a1, professionalTax)
  {
    RateNonNegative(basic, workingDays);
    ScaleMonotone(DayRate(basic, workingDays), a1 as real, a2 as real);
    RoundHalfEven2Monotone(DayRate(basic, workingDays) * (a1 as real), DayRate(basic, workingDays) * (a2 as real));
  }

  lemma RateNonNegative(basic: real, workingDays: int)
    requires workingDays > 0 && basic >= 0.0
    ensures DayRate(basic, workingDays) >= 0.0
  {
  }

  lemma ScaleMonotone(rate: real, x: real, y: real)
    requires rate >= 0.0 && x <= y
    ensures rate * x <= rate * y
  {
    assert rate * (y - x) >= 0.0;
  }

  /** A whole month absent deducts the whole basic salary. */
  lemma WholeMonthAbsent(basic: real, workingDays: int, professionalTax: real)
    requires workingDays > 0 && IsCents(basic)
    ensures PayrunNet(basic, workingDays, workingDays, professionalTax) == -(ProvidentFund(basic) + professionalTax)
  {
    assert DayRate(basic, workingDays) * (workingDays as real) == basic;
    RoundHalfEven2Exact(basic);
  }

  /** A payrun row. */
  class Payrun {
    var basicSalary: real
    var presentDays: int
    var absentDays: int
    var leaveDays: int
    var workingDays: int
    var pf: real
    var professionalTax: real
    var deductions: real
    var grossPay: real
    var netPay: real

    /** A new row with the model's defaults: 26 working days, tax 200, all amounts zero. */
    constructor (basicSalary: real, presentDays: int, absentDays: int, leaveDays: int)
      ensures this.basicSalary == basicSalary && this.presentDays == presentDays
      ensures this.absentDays == absentDays && this.leaveDays == leaveDays
      ensures workingDays == 26 && professionalTax == 200.0
      ensures pf == 0.0 && deductions == 0.0 && grossPay == 0.0 && netPay == 0.0
    {
      this.basicSalary := basicSalary;
      this.presentDays := presentDays;
      this.absentDays := absentDays;
      this.leaveDays := leaveDays;
      workingDays := 26;
      pf := 0.0;
      professionalTax := 200.0;
      deductions := 0.0;
      grossPay := 0.0;
      netPay := 0.0;
    }

    /**
     * `calculate_payroll`: gross is the basic salary; deductions are the
     * rounded provident fund, the tax and the rounded absence deduction; net
     * is gross less deductions. A zero month length divides by zero in the
     * source, so it is excluded here.
     */
    method CalculatePayroll()
      requires workingDays != 0
      modifies this
      ensures basicSalary == old(basicSalary) && presentDays == old(presentDays) && absentDays == old(absentDays)
      ensures leaveDays == old(leaveDays) && workingDays == old(workingDays) && professionalTax == old(professionalTax)
      ensures grossPay == basicSalary
      ensures pf == ProvidentFund(basicSalary)
      ensures deductions == pf + professionalTax + AbsentDeduction(basicSalary, workingDays, absentDays)
      ensures netPay == PayrunNet(basicSalary, workingDays, absentDays, professionalTax)
    {
      grossPay := basicSalary;
      pf := RoundHalfEven2(basicSalary * 0.12);
      var absentDeduction := AbsentDeduction(basicSalary, workingDays, absentDays);
      deductions := pf + professionalTax + absentDeduction;
      netPay := grossPay - deductions;
    }
  }
}
