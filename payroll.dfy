/**
 * Payroll of the Django back end: the monthly salary calculation, the
 * `Payslip` model whose first save assigns its public id and its SHA-256
 * signature, the generation run that creates one finalised payslip per
 * employee who has none for the month, signature verification and the
 * download permission check.
 */
module Payroll {
  import opened Common
  import opened Hashing
  import opened HrRecords

  /** Working days a full month's pay is spread over. */
  const StandardWorkingDays := 26
  /** The fixed monthly professional tax. */
  const ProfessionalTax: real := 200.0

  datatype PayslipStatus = Draft | Finalized

  /** The figures `calculate_payroll` returns for one employee and month. */
  datatype PayrollFigures = PayrollFigures(
    basic: real,
    hra: real,
    da: real,
    gross: real,
    pf: real,
    professionalTax: real,
    totalDeductions: real,
    net: real,
    daysWorked: nat,
    status: PayslipStatus)

  /** Gross pay for a full month: basic plus 40% house rent and 20% dearness allowance. */
  function FullGross(basic: real): real {
    basic + basic * 0.4 + basic * 0.2
  }

  /**
   * `calculate_payroll`: allowances are fixed shares of basic, provident
   * fund is 12% of basic, the professional tax is fixed, and a month with
   * fewer than 26 present days pays gross in proportion to the days worked.
   */
  function CalculatePayroll(basic: real, daysWorked: nat): (f: PayrollFigures)
    ensures f.basic == basic && f.hra == basic * 0.4 && f.da == basic * 0.2
    ensures daysWorked >= StandardWorkingDays ==> f.gross == FullGross(basic)
    ensures daysWorked < StandardWorkingDays ==> f.gross == FullGross(basic) * (daysWorked as real) / 26.0
    ensures f.pf == basic * 0.12 && f.professionalTax == ProfessionalTax
    ensures f.totalDeductions == f.pf + f.professionalTax
    ensures f.net == f.gross - f.totalDeductions
    ensures f.daysWorked == daysWorked && f.status == Finalized
  {
    var hra := basic * 0.4;
    var da := basic * 0.2;
    var full := basic + hra + da;
    var pf := basic * 0.12;
    var gross :=
      if daysWorked < StandardWorkingDays then
        var perDay := full / (StandardWorkingDays as real);
        var absence := ((StandardWorkingDays - daysWorked) as real) * perDay;
        assert absence == full - full * (daysWorked as real) / 26.0;
        full - absence
      else full;
    var total := pf + ProfessionalTax;
    PayrollFigures(basic, hra, da, gross, pf, ProfessionalTax, total, gross - total, daysWorked, Finalized)
  }

  /** Gross never exceeds a full month's and never goes below zero; it is the full
      amount exactly when the month has at least 26 present days (or basic is zero). */
  lemma GrossWithinFullMonth(basic: real, daysWorked: nat)
    requires basic >= 0.0
    ensures var f := CalculatePayroll(basic, daysWorked);
            0.0 <= f.gross <= FullGross(basic)
            && (f.gross == FullGross(basic) <==> daysWorked >= StandardWorkingDays || basic == 0.0)
  {
    var full := FullGross(basic);
    if daysWorked < StandardWorkingDays {
      var d := daysWorked as real;
      assert full * d <= full * 26.0;
      if basic > 0.0 {
        assert full > 0.0;
        assert full * d < full * 26.0;
      }
    }
  }

  /** More present days never lower the net pay. */
  lemma NetGrowsWithAttendance(basic: real, d1: nat, d2: nat)
    requires basic >= 0.0 && d1 <= d2
    ensures CalculatePayroll(basic, d1).net <= CalculatePayroll(basic, d2).net
  {
    var f1, f2 := CalculatePayroll(basic, d1), CalculatePayroll(basic, d2);
    GrossWithinFullMonth(basic, d1);
    if d2 < StandardWorkingDays {
      ProratedMonotone(FullGross(basic), d1 as real, d2 as real);
    }
    assert f1.gross <= f2.gross;
    assert f1.totalDeductions == f2.totalDeductions;
  }

  lemma ProratedMonotone(full: real, a: real, b: real)
    requires full >= 0.0 && a <= b
    ensures full * a / 26.0 <= full * b / 26.0
  {
    assert full * a <= full * b;
  }

  /** Net pay is not floored: a month with no present days leaves the deductions to pay. */
  lemma NoAttendanceNetIsNegative(basic: real)
    requires basic >= 0.0
    ensures CalculatePayroll(basic, 0).net == -(basic * 0.12 + ProfessionalTax) < 0.0
  {
  }

  /** The figures as a `DecimalField(decimal_places=2)` stores them. */
  function Quantized(f: PayrollFigures): (q: PayrollFigures)
    ensures IsCents(q.net) && q.daysWorked == f.daysWorked && q.status == f.status
  {
    f.(basic := RoundHalfEven2(f.basic), hra := RoundHalfEven2(f.hra), da := RoundHalfEven2(f.da),
       gross := RoundHalfEven2(f.gross), pf := RoundHalfEven2(f.pf),
       professionalTax := RoundHalfEven2(f.professionalTax),
       totalDeductions := RoundHalfEven2(f.totalDeductions), net := RoundHalfEven2(f.net))
  }

  /** The text that is hashed: employee id, month, year and net pay written one after another. */
  function SignatureText(employee: int, month: int, year: int, netText: string): string {
    IntToString(employee) + IntToString(month) + IntToString(year) + netText
  }

  /** Nothing separates the parts, so employee 1 in November and employee 11 in
      January of the same year sign the same text. */
  lemma SignatureTextAmbiguous(year: int, netText: string)
    ensures SignatureText(1, 11, year, netText) == SignatureText(11, 1, year, netText)
  {
    assert IntToString(1) == "1";
    assert IntToString(11) == "11";
  }

  /** A stored payslip row (`payslips` table). */
  datatype PayslipRow = PayslipRow(
    employee: int,
    month: int,
    year: int,
    figures: PayrollFigures,
    signature: string,
    publicId: string)

  /** The key the table is unique on: `unique_together = ['employee', 'month', 'year']`. */
  predicate SameKey(r: PayslipRow, employee: int, month: int, year: int) {
    r.employee == employee && r.month == month && r.year == year
  }

  predicate HasPayslip(rows: seq<PayslipRow>, employee: int, month: int, year: int) {
    exists r :: r in rows && SameKey(r, employee, month, year)
  }

  predicate UniqueKeys(rows: seq<PayslipRow>) {
    forall i, j :: 0 <= i < j < |rows| ==> !SameKey(rows[j], rows[i].employee, rows[i].month, rows[i].year)
  }

  /**
   * A payslip object before and after `save()`. `render` is `str()` of the
   * in-memory net salary `Decimal`, whose number of fraction digits depends
   * on how the value was computed.
   */
  class Payslip {
    var employee: int
    var month: int
    var year: int
    var figures: PayrollFigures
    var digitalSignature: string
    var publicId: string

    constructor (employee: int, month: int, year: int, figures: PayrollFigures)
      ensures this.employee == employee && this.month == month && this.year == year
      ensures this.figures == figures && digitalSignature == "" && publicId == ""
    {
      this.employee := employee;
      this.month := month;
      this.year := year;
      this.figures := figures;
      digitalSignature := "";
      publicId := "";
    }

    /** The row the database holds for this payslip. */
    function Stored(): PayslipRow
      reads this
    {
      PayslipRow(employee, month, year, Quantized(figures), digitalSignature, publicId)
    }

    /**
     * `Payslip.save`: an empty public id becomes `payslip_` and twelve hex
     * digits of a fresh UUID, an empty signature becomes the SHA-256 of the
     * signature text; values already set are kept. Returns the stored row.
     */
    method Save(uuidHex: string, sha: Sha256Fn, render: real -> string) returns (row: PayslipRow)
      requires IsUuidHex(uuidHex)
      modifies this
      ensures publicId == SetOnceId(old(publicId), "payslip_", uuidHex)
      ensures digitalSignature == if old(digitalSignature) == "" then sha(SignatureText(employee, month, year, render(figures.net)))
                                  else old(digitalSignature)
      ensures employee == old(employee) && month == old(month) && year == old(year) && figures == old(figures)
      ensures row == Stored()
    {
      publicId := SetOnceId(publicId, "payslip_", uuidHex);
      if digitalSignature == "" {
        digitalSignature := sha(SignatureText(employee, month, year, render(figures.net)));
      }
      row := Stored();
    }
  }

  /** The row `Payslip.objects.create(...)` leaves for an employee's month. */
  function CreatedRow(employee: int, month: int, year: int, f: PayrollFigures,
                      uuidHex: string, sha: Sha256Fn, render: real -> string): PayslipRow
    requires IsUuidHex(uuidHex)
  {
    PayslipRow(employee, month, year, Quantized(f), sha(SignatureText(employee, month, year, render(f.net))),
               SetOnceId("", "payslip_", uuidHex))
  }

  /** State of a generation run: the table, `payslips_generated` and `total_payout`. */
  datatype RunState = RunState(rows: seq<PayslipRow>, generated: nat, payout: real)

  predicate FreshIds(freshHex: seq<string>, n: nat) {
    |freshHex| >= n && forall i :: 0 <= i < |freshHex| ==> IsUuidHex(freshHex[i])
  }

  /** The figures `generate_payroll` computes for one employee. */
  function FiguresFor(e: UserRecord, attendance: seq<AttendanceRow>, month: int, year: int): PayrollFigures {
    CalculatePayroll(e.basicSalary, CountInMonth(attendance, e.id, month, year, StatusPresent))
  }

  /**
   * One pass of the `generate_payroll` loop: an employee who already has a
   * payslip for the month is skipped; anyone else gets a new row, and the
   * in-memory net pay is added to the payout.
   */
  function Step(s: RunState, e: UserRecord, attendance: seq<AttendanceRow>, month: int, year: int,
                uuidHex: string, sha: Sha256Fn, render: real -> string): RunState
    requires IsUuidHex(uuidHex)
  {
    if HasPayslip(s.rows, e.id, month, year) then s
    else
      var f := FiguresFor(e, attendance, month, year);
      RunState(s.rows + [CreatedRow(e.id, month, year, f, uuidHex, sha, render)], s.generated + 1, s.payout + f.net)
  }

  /** The generation run over `emps` in order, starting from the table `rows0`; `freshHex[i]`
      is the UUID drawn if the i-th employee gets a payslip. */
  function Run(rows0: seq<PayslipRow>, emps: seq<UserRecord>, attendance: seq<AttendanceRow>,
               month: int, year: int, freshHex: seq<string>, sha: Sha256Fn, render: real -> string): RunState
    requires FreshIds(freshHex, |emps|)
    decreases |emps|
  {
    if emps == [] then RunState(rows0, 0, 0.0)
    else Step(Run(rows0, emps[..|emps| - 1], attendance, month, year, freshHex, sha, render),
              emps[|emps| - 1], attendance, month, year, freshHex[|emps| - 1], sha, render)
  }

  /** One more employee: the run over `emps[..i + 1]` is the run over `emps[..i]` and one step. */
  lemma RunStep(rows0: seq<PayslipRow>, emps: seq<UserRecord>, i: nat, attendance: seq<AttendanceRow>,
                month: int, year: int, freshHex: seq<string>, sha: Sha256Fn, render: real -> string)
    requires i < |emps| && FreshIds(freshHex, |emps|)
    ensures Run(rows0, emps[..i + 1], attendance, month, year, freshHex, sha, render)
            == Step(Run(rows0, emps[..i], attendance, month, year, freshHex, sha, render),
                    emps[i], attendance, month, year, freshHex[i], sha, render)
  {
    assert emps[..i + 1][..i] == emps[..i];
  }

  /** `rows` is `rows0` followed by `n` finalised payslips for the month. */
  predicate AppendedFor(rows0: seq<PayslipRow>, rows: seq<PayslipRow>, n: nat, month: int, year: int) {
    |rows| == |rows0| + n && rows[..|rows0|] == rows0
    && forall k :: |rows0| <= k < |rows| ==>
         rows[k].month == month && rows[k].year == year && rows[k].figures.status == Finalized
  }

  /** A step either keeps the state or appends one finalised payslip for the month and counts it. */
  lemma StepAppends(rows0: seq<PayslipRow>, s: RunState, e: UserRecord, attendance: seq<AttendanceRow>,
                    month: int, year: int, uuidHex: string, sha: Sha256Fn, render: real -> string)
    requires IsUuidHex(uuidHex) && AppendedFor(rows0, s.rows, s.generated, month, year)
    ensures var t := Step(s, e, attendance, month, year, uuidHex, sha, render);
            AppendedFor(rows0, t.rows, t.generated, month, year)
  {
    if !HasPayslip(s.rows, e.id, month, year) {
      var f := FiguresFor(e, attendance, month, year);
      var row := CreatedRow(e.id, month, year, f, uuidHex, sha, render);
      assert row.month == month && row.year == year && row.figures.status == f.status == Finalized;
      var rows := s.rows + [row];
      assert rows[..|rows0|] == s.rows[..|rows0|];
      forall k | |rows0| <= k < |rows|
        ensures rows[k].month == month && rows[k].year == year && rows[k].figures.status == Finalized
      {
        if k < |s.rows| {
          assert rows[k] == s.rows[k];
        }
      }
    }
  }

  /** A run only appends, one finalised row for the month per payslip it counts. */
  lemma {:induction false} RunAppends(rows0: seq<PayslipRow>, emps: seq<UserRecord>, attendance: seq<AttendanceRow>,
                                      month: int, year: int, freshHex: seq<string>, sha: Sha256Fn, render: real -> string)
    requires FreshIds(freshHex, |emps|)
    ensures var s := Run(rows0, emps, attendance, month, year, freshHex, sha, render);
            AppendedFor(rows0, s.rows, s.generated, month, year)
    decreases |emps|
  {
    if emps == [] {
      assert rows0[..|rows0|] == rows0;
    } else {
      var init := emps[..|emps| - 1];
      RunAppends(rows0, init, attendance, month, year, freshHex, sha, render);
      StepAppends(rows0, Run(rows0, init, attendance, month, year, freshHex, sha, render), emps[|emps| - 1],
                  attendance, month, year, freshHex[|emps| - 1], sha, render);
    }
  }

  /** A run keeps the table unique on (employee, month, year). */
  lemma {:induction false} RunKeepsKeysUnique(rows0: seq<PayslipRow>, emps: seq<UserRecord>, attendance: seq<AttendanceRow>,
                                              month: int, year: int, freshHex: seq<string>, sha: Sha256Fn, render: real -> string)
    requires FreshIds(freshHex, |emps|) && UniqueKeys(rows0)
    ensures UniqueKeys(Run(rows0, emps, attendance, month, year, freshHex, sha, render).rows)
    decreases |emps|
  {
    if emps != [] {
      var s := Run(rows0, emps[..|emps| - 1], attendance, month, year, freshHex, sha, render);
      RunKeepsKeysUnique(rows0, emps[..|emps| - 1], attendance, month, year, freshHex, sha, render);
      var e := emps[|emps| - 1];
      if !HasPayslip(s.rows, e.id, month, year) {
        var rows := s.rows + [CreatedRow(e.id, month, year, FiguresFor(e, attendance, month, year), freshHex[|emps| - 1], sha, render)];
        forall i, j | 0 <= i < j < |rows|
          ensures !SameKey(rows[j], rows[i].employee, rows[i].month, rows[i].year)
        {
          if j == |rows| - 1 {
            assert rows[i] in s.rows;
          }
        }
      }
    }
  }

  /** The last step of a run keeps every row and leaves the last employee with a payslip. */
  lemma RunLastStep(rows0: seq<PayslipRow>, emps: seq<UserRecord>, attendance: seq<AttendanceRow>,
                    month: int, year: int, freshHex: seq<string>, sha: Sha256Fn, render: real -> string)
    requires emps != [] && FreshIds(freshHex, |emps|)
    ensures var s := Run(rows0, emps[..|emps| - 1], attendance, month, year, freshHex, sha, render);
            var t := Run(rows0, emps, attendance, month, year, freshHex, sha, render);
            (forall r :: r in s.rows ==> r in t.rows) && HasPayslip(t.rows, emps[|emps| - 1].id, month, year)
  {
    var s := Run(rows0, emps[..|emps| - 1], attendance, month, year, freshHex, sha, render);
    var e := emps[|emps| - 1];
    if !HasPayslip(s.rows, e.id, month, year) {
      var row := CreatedRow(e.id, month, year, FiguresFor(e, attendance, month, year), freshHex[|emps| - 1], sha, render);
      assert SameKey(row, e.id, month, year);
      assert row in s.rows + [row];
    }
  }

  /** After a run every listed employee has a payslip for the month. */
  lemma {:induction false} RunCoversEmployees(rows0: seq<PayslipRow>, emps: seq<UserRecord>, attendance: seq<AttendanceRow>,
                                              month: int, year: int, freshHex: seq<string>, sha: Sha256Fn, render: real -> string)
    requires FreshIds(freshHex, |emps|)
    ensures forall e :: e in emps ==> HasPayslip(Run(rows0, emps, attendance, month, year, freshHex, sha, render).rows, e.id, month, year)
    decreases |emps|
  {
    if emps != [] {
      var init := emps[..|emps| - 1];
      RunCoversEmployees(rows0, init, attendance, month, year, freshHex, sha, render);
      RunLastStep(rows0, emps, attendance, month, year, freshHex, sha, render);
      var t := Run(rows0, emps, attendance, month, year, freshHex, sha, render);
      forall x | x in emps ensures HasPayslip(t.rows, x.id, month, year) {
        if x != emps[|emps| - 1] {
          assert x in init;
        }
      }
    }
  }

  /** A run over employees who all have a payslip for the month changes nothing. */
  lemma {:induction false} RunSkipsCovered(rows0: seq<PayslipRow>, emps: seq<UserRecord>, attendance: seq<AttendanceRow>,
                                           month: int, year: int, freshHex: seq<string>, sha: Sha256Fn, render: real -> string)
    requires FreshIds(freshHex, |emps|)
    requires forall e :: e in emps ==> HasPayslip(rows0, e.id, month, year)
    ensures Run(rows0, emps, attendance, month, year, freshHex, sha, render) == RunState(rows0, 0, 0.0)
    decreases |emps|
  {
    if emps != [] {
      RunSkipsCovered(rows0, emps[..|emps| - 1], attendance, month, year, freshHex, sha, render);
    }
  }

  /** Generating the same month twice: the second run creates nothing and pays out nothing. */
  lemma RunTwiceGeneratesNothing(rows0: seq<PayslipRow>, emps: seq<UserRecord>, attendance: seq<AttendanceRow>,
                                 month: int, year: int, freshHex: seq<string>, freshHex2: seq<string>,
                                 sha: Sha256Fn, render: real -> string)
    requires FreshIds(freshHex, |emps|) && FreshIds(freshHex2, |emps|)
    ensures var s := Run(rows0, emps, attendance, month, year, freshHex, sha, render);
            Run(s.rows, emps, attendance, month, year, freshHex2, sha, render) == RunState(s.rows, 0, 0.0)
  {
    var s := Run(rows0, emps, attendance, month, year, freshHex, sha, render);
    RunCoversEmployees(rows0, emps, attendance, month, year, freshHex, sha, render);
    RunSkipsCovered(s.rows, emps, attendance, month, year, freshHex2, sha, render);
  }

  /** The `payslips` table. */
  class PayslipTable {
    var rows: seq<PayslipRow>

    ghost predicate Valid()
      reads this
    {
      UniqueKeys(rows)
    }

    constructor ()
      ensures Valid() && rows == []
    {
      rows := [];
    }

    /** One pass of the `generate_payroll` loop: skip the employee if the month
        already has a payslip, otherwise create and save one and count it. */
    method Visit(e: UserRecord, attendance: seq<AttendanceRow>, month: int, year: int,
                 uuidHex: string, sha: Sha256Fn, render: real -> string, generated: nat, payout: real)
      returns (generated': nat, payout': real)
      requires IsUuidHex(uuidHex)
      modifies this
      ensures RunState(rows, generated', payout')
              == Step(RunState(old(rows), generated, payout), e, attendance, month, year, uuidHex, sha, render)
    {
      generated', payout' := generated, payout;
      if !HasPayslip(rows, e.id, month, year) {
        var f := FiguresFor(e, attendance, month, year);
        var p := new Payslip(e.id, month, year, f);
        var row := p.Save(uuidHex, sha, render);
        rows := rows + [row];
        generated' := generated' + 1;
        payout' := payout' + f.net;
      }
    }

    /**
     * `generate_payroll`: one pass over the users whose role is `employee`,
     * in table order. `freshHex[i]` is the UUID drawn if the i-th employee
     * gets a payslip. Returns `payslips_generated` and `total_payout`.
     */
    method GeneratePayroll(users: seq<UserRecord>, attendance: seq<AttendanceRow>, month: int, year: int,
                           freshHex: seq<string>, sha: Sha256Fn, render: real -> string)
      returns (generated: nat, totalPayout: real)
      requires Valid() && FreshIds(freshHex, |WithRoleEmployee(users)|)
      modifies this
      ensures Valid()
      ensures Run(old(rows), WithRoleEmployee(users), attendance, month, year, freshHex, sha, render)
              == RunState(rows, generated, totalPayout)
    {
      var employees := WithRoleEmployee(users);
      generated, totalPayout := 0, 0.0;
      var i := 0;
      while i < |employees|
        invariant 0 <= i <= |employees|
        invariant Run(old(rows), employees[..i], attendance, month, year, freshHex, sha, render)
                  == RunState(rows, generated, totalPayout)
      {
        generated, totalPayout := Visit(employees[i], attendance, month, year, freshHex[i], sha, render,
                                        generated, totalPayout);
        RunStep(old(rows), employees, i, attendance, month, year, freshHex, sha, render);
        i := i + 1;
      }
      assert employees[..|employees|] == employees;
      RunKeepsKeysUnique(old(rows), employees, attendance, month, year, freshHex, sha, render);
    }
  }

  datatype Verification = PayslipNotFound | Verified(valid: bool)

  /**
   * `verify_payslip`: a missing payslip is reported; otherwise the signature
   * text is rebuilt from the stored row, whose net salary prints with two
   * places, and its SHA-256 compared with the stored signature. Payslips
   * have primary keys 1, 2, … in table order.
   */
  function VerifyPayslip(rows: seq<PayslipRow>, pk: int, sha: Sha256Fn): (v: Verification)
    requires forall r :: r in rows ==> IsCents(r.figures.net)
    requires DigestShaped(sha)
    ensures v.PayslipNotFound? <==> !(1 <= pk <= |rows|)
    ensures v.Verified? && v.valid ==> IsHexDigest(rows[pk - 1].signature)
  {
    if 1 <= pk <= |rows| then
      var r := rows[pk - 1];
      Verified(sha(SignatureText(r.employee, r.month, r.year, Fixed2Text(r.figures.net))) == r.signature)
    else PayslipNotFound
  }

  /** A payslip verifies when the text signed at save time is the two-place text read
      back; it is the `render` of the in-memory value that decides whether it is. */
  lemma CreatedRowVerifies(rows: seq<PayslipRow>, e: int, month: int, year: int, f: PayrollFigures,
                           uuidHex: string, sha: Sha256Fn, render: real -> string)
    requires IsUuidHex(uuidHex) && forall r :: r in rows ==> IsCents(r.figures.net)
    requires DigestShaped(sha) && render(f.net) == Fixed2Text(RoundHalfEven2(f.net))
    ensures var rows' := rows + [CreatedRow(e, month, year, f, uuidHex, sha, render)];
            VerifyPayslip(rows', |rows'|, sha) == Verified(true)
  {
  }

  datatype Access = NotFound | Forbidden | Granted

  /** `download_payslip_pdf`: 404 for a missing payslip, 403 unless the requester owns
      it or is an admin or payroll officer. */
  function DownloadAccess(rows: seq<PayslipRow>, pk: int, requester: UserRecord): (a: Access)
    ensures a == NotFound <==> !(1 <= pk <= |rows|)
    ensures a == Granted <==>
              (1 <= pk <= |rows|
               && (rows[pk - 1].employee == requester.id || requester.role == RoleAdmin || requester.role == RolePayrollOfficer))
  {
    if !(1 <= pk <= |rows|) then NotFound
    else if rows[pk - 1].employee != requester.id && requester.role != RoleAdmin && requester.role != RolePayrollOfficer then Forbidden
    else Granted
  }

  /** An employee (or HR officer) gets no one else's payslip. */
  lemma OthersCannotDownload(rows: seq<PayslipRow>, pk: int, requester: UserRecord)
    requires 1 <= pk <= |rows| && rows[pk - 1].employee != requester.id
    requires requester.role == RoleEmployee || requester.role == RoleHrOfficer
    ensures DownloadAccess(rows, pk, requester) == Forbidden
  {
  }
}
