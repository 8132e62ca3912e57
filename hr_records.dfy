/**
 * The rows of the Django back end that several apps read: users (with the
 * salary fields of the payroll code) and daily attendance records, and the
 * counting queries the payroll, analytics and attendance views run over them.
 */
module HrRecords {
  import opened Dates

  /** Role values stored in `User.role`. */
  const RoleAdmin := "admin"
  const RoleEmployee := "employee"
  const RoleHrOfficer := "hr_officer"
  const RolePayrollOfficer := "payroll_officer"

  /** Attendance status values written by the attendance views. */
  const StatusPresent := "present"
  const StatusLeave := "leave"

  /**
   * A user row: primary key, role, the salary fields (`basic_salary`,
   * `hra_percentage`, `da_percentage`) and `is_active`.
   */
  datatype UserRecord = UserRecord(
    id: int,
    role: string,
    basicSalary: real,
    hraPercentage: real,
    daPercentage: real,
    isActive: bool)

  /**
   * `User.gross_salary`: basic plus the HRA and DA percentages of basic.
   * Written as basic times one factor, so the proportionality is explicit.
   */
  function GrossSalary(basic: real, hraPercentage: real, daPercentage: real): (g: real)
    ensures g == basic * (1.0 + hraPercentage / 100.0 + daPercentage / 100.0)
  {
    basic + basic * (hraPercentage / 100.0) + basic * (daPercentage / 100.0)
  }

  /** The model's default percentages, 40 for HRA and 50 for DA. */
  const DefaultHraPercentage := 40.0
  const DefaultDaPercentage := 50.0

  /** With the default percentages gross is 1.9 times basic. */
  lemma DefaultGrossSalary(basic: real)
    ensures GrossSalary(basic, DefaultHraPercentage, DefaultDaPercentage) == 1.9 * basic
  {
  }

  /** With non-negative percentages, a raise in basic raises gross by at least as much. */
  lemma GrossSalaryMonotone(b1: real, b2: real, hra: real, da: real)
    requires b1 <= b2 && hra >= 0.0 && da >= 0.0
    ensures GrossSalary(b1, hra, da) <= GrossSalary(b2, hra, da)
    ensures GrossSalary(b2, hra, da) - GrossSalary(b1, hra, da) >= b2 - b1
  {
    var f := 1.0 + hra / 100.0 + da / 100.0;
    assert GrossSalary(b2, hra, da) - GrossSalary(b1, hra, da) == (b2 - b1) * f;
    assert (b2 - b1) * f >= (b2 - b1) * 1.0;
  }

  /** An attendance row: one employee, one date, a status string. */
  datatype AttendanceRow = AttendanceRow(employee: int, date: Date, status: string)

  /** The row belongs to `employee` and falls in `month` of `year` (`date__month`, `date__year`). */
  predicate InMonth(r: AttendanceRow, employee: int, month: int, year: int) {
    r.employee == employee && r.date.month == month && r.date.year == year
  }

  /** `Attendance.objects.filter(employee=…, date__month=…, date__year=…, status=…).count()`. */
  function CountInMonth(rows: seq<AttendanceRow>, employee: int, month: int, year: int, status: string): (n: nat)
    ensures n <= |rows|
  {
    if rows == [] then 0
    else CountInMonth(rows[..|rows| - 1], employee, month, year, status)
         + (var r := rows[|rows| - 1]; if InMonth(r, employee, month, year) && r.status == status then 1 else 0)
  }

  /** The counts of two tables read one after the other add up. */
  lemma {:induction false} CountInMonthAppend(a: seq<AttendanceRow>, b: seq<AttendanceRow>, employee: int, month: int, year: int, status: string)
    ensures CountInMonth(a + b, employee, month, year, status)
            == CountInMonth(a, employee, month, year, status) + CountInMonth(b, employee, month, year, status)
    decreases |b|
  {
    if b == [] {
      assert a + b == a;
    } else {
      var b' := b[..|b| - 1];
      assert (a + b)[..|a + b| - 1] == a + b';
      assert (a + b)[|a + b| - 1] == b[|b| - 1];
      CountInMonthAppend(a, b', employee, month, year, status);
    }
  }

  /** One row counts exactly when it is the employee's, in the month and of the status. */
  lemma CountInMonthSingle(r: AttendanceRow, employee: int, month: int, year: int, status: string)
    ensures CountInMonth([r], employee, month, year, status)
            == if InMonth(r, employee, month, year) && r.status == status then 1 else 0
  {
    assert [r][..0] == [];
  }

  /** `User.objects.filter(role='employee')`, in table order. */
  function WithRoleEmployee(users: seq<UserRecord>): (r: seq<UserRecord>)
    ensures |r| <= |users|
    ensures forall u :: u in r <==> u in users && u.role == RoleEmployee
  {
    if users == [] then []
    else WithRoleEmployee(users[..|users| - 1])
         + (if users[|users| - 1].role == RoleEmployee then [users[|users| - 1]] else [])
  }

  /** `User.objects.filter(is_active=True, role='employee')`, in table order. */
  function ActiveEmployees(users: seq<UserRecord>): (r: seq<UserRecord>)
    ensures |r| <= |users|
    ensures forall u :: u in r <==> u in users && u.isActive && u.role == RoleEmployee
  {
    if users == [] then []
    else ActiveEmployees(users[..|users| - 1])
         + (var u := users[|users| - 1]; if u.isActive && u.role == RoleEmployee then [u] else [])
  }
}
