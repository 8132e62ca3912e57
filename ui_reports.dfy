/**
 * The salary statement report (`src/components/ReportsPage.jsx`): who may
 * open it, the years offered, the employee lookup, the check before a
 * report is generated and the yearly totals of the monthly rows.
 */
module ReportsUi {
  import opened Common

  /** `isAuthorized`: only administrators and payroll officers see the module. */
  function IsAuthorized(userRole: string): (ok: bool)
    ensures ok <==> userRole == "Administrator" || userRole == "Payroll Officer"
  {
    userRole == "Administrator" || userRole == "Payroll Officer"
  }

  /** The year choices: the current year and the five before it, newest first. */
  function Years(currentYear: int): (ys: seq<int>)
    ensures |ys| == 6 && ys[0] == currentYear && ys[5] == currentYear - 5
    ensures forall i, j :: 0 <= i < j < |ys| ==> ys[i] > ys[j]
    ensures forall y :: y in ys <==> currentYear - 5 <= y <= currentYear
  {
    [currentYear, currentYear - 1, currentYear - 2, currentYear - 3, currentYear - 4, currentYear - 5]
  }

  datatype EmployeeRef = EmployeeRef(id: string, name: string, employeeId: string)

  /** `employees.find(e => e.id === selected)`: the position of the first match. */
  function Find(employees: seq<EmployeeRef>, selected: string): (i: Option<nat>)
    ensures i.Some? ==> i.value < |employees| && employees[i.value].id == selected
                        && forall k :: 0 <= k < i.value ==> employees[k].id != selected
    ensures i.None? ==> forall k :: 0 <= k < |employees| ==> employees[k].id != selected
  {
    if employees == [] then None
    else if employees[0].id == selected then Some(0)
    else
      var r := Find(employees[1..], selected);
      if r.Some? then Some(r.value + 1) else None
  }

  /** `getEmployeeName` and `getEmployeeId`: the first match's name and code, or empty texts when nobody matches. */
  function Heading(employees: seq<EmployeeRef>, selected: string): (h: (string, string))
    ensures Find(employees, selected).None? ==> h == ("", "")
    ensures Find(employees, selected).Some? ==>
              var e := employees[Find(employees, selected).value]; h == (e.name, e.employeeId)
  {
    var i := Find(employees, selected);
    if i.Some? then (employees[i.value].name, employees[i.value].employeeId) else ("", "")
  }

  /** A row of the statement. */
  datatype MonthRow = MonthRow(month: string, basicSalary: real, allowances: real, deductions: real, netSalary: real)

  /** A row whose net salary is its basic salary plus allowances minus deductions. */
  predicate Balanced(r: MonthRow) {
    r.netSalary == r.basicSalary + r.allowances - r.deductions
  }

  // The four money columns.
  function Basic(r: MonthRow): real { r.basicSalary }
  function Allowances(r: MonthRow): real { r.allowances }
  function Deductions(r: MonthRow): real { r.deductions }
  function Net(r: MonthRow): real { r.netSalary }

  /** One column of the statement, in month order. */
  function Column(rows: seq<MonthRow>, f: MonthRow -> real): (c: seq<real>)
    ensures |c| == |rows| && forall k :: 0 <= k < |rows| ==> c[k] == f(rows[k])
  {
    seq(|rows|, k requires 0 <= k < |rows| => f(rows[k]))
  }

  /** The footer: `reduce((sum, m) => sum + m.<column>, 0)` over every column. */
  function Total(rows: seq<MonthRow>, f: MonthRow -> real): real {
    SumReals(Column(rows, f))
  }

  /** When every row balances, so do the yearly totals. */
  lemma {:induction false} TotalsBalance(rows: seq<MonthRow>)
    requires forall k :: 0 <= k < |rows| ==> Balanced(rows[k])
    ensures Total(rows, Net)
            == Total(rows, Basic) + Total(rows, Allowances) - Total(rows, Deductions)
  {
    if rows != [] {
      var init := rows[..|rows| - 1];
      TotalsBalance(init);
      assert Column(rows, Net)[..|rows| - 1] == Column(init, Net);
      assert Column(rows, Basic)[..|rows| - 1] == Column(init, Basic);
      assert Column(rows, Allowances)[..|rows| - 1] == Column(init, Allowances);
      assert Column(rows, Deductions)[..|rows| - 1] == Column(init, Deductions);
    }
  }

  /** A column whose every entry is `v` sums to `v` times the number of rows. */
  lemma {:induction false} ConstantSum(xs: seq<real>, v: real)
    requires forall k :: 0 <= k < |xs| ==> xs[k] == v
    ensures SumReals(xs) == |xs| as real * v
  {
    if xs != [] {
      ConstantSum(xs[..|xs| - 1], v);
    }
  }

  /** The statement's twelve months, all alike. */
  const Months := ["January", "February", "March", "April", "May", "June",
                   "July", "August", "September", "October", "November", "December"]

  function Statement(): (rows: seq<MonthRow>)
    ensures |rows| == 12
  {
    seq(12, k requires 0 <= k < 12 => MonthRow(Months[k], 25000.0, 15000.0, 6200.0, 33800.0))
  }

  /** Its footer: 300000 basic, 180000 allowances, 74400 deductions, 405600 net. */
  lemma StatementTotals()
    ensures Total(Statement(), Basic) == 300000.0
    ensures Total(Statement(), Allowances) == 180000.0
    ensures Total(Statement(), Deductions) == 74400.0
    ensures Total(Statement(), Net) == 405600.0
  {
    var rows := Statement();
    ConstantSum(Column(rows, Basic), 25000.0);
    ConstantSum(Column(rows, Allowances), 15000.0);
    ConstantSum(Column(rows, Deductions), 6200.0);
    ConstantSum(Column(rows, Net), 33800.0);
  }

  /** The report page. */
  class ReportsPage {
    var selectedEmployee: string
    var selectedYear: string
    var reportGenerated: bool

    constructor()
      ensures selectedEmployee == "" && selectedYear == "" && !reportGenerated
    {
      selectedEmployee := "";
      selectedYear := "";
      reportGenerated := false;
    }

    /** Choosing an employee; a report already on show stays on show for the new choice. */
    method SelectEmployee(id: string)
      modifies this
      ensures selectedEmployee == id && selectedYear == old(selectedYear) && reportGenerated == old(reportGenerated)
    {
      selectedEmployee := id;
    }

    method SelectYear(year: string)
      modifies this
      ensures selectedYear == year && selectedEmployee == old(selectedEmployee) && reportGenerated == old(reportGenerated)
    {
      selectedYear := year;
    }

    /** `handleGenerateReport`: both choices are needed; without them the page alerts and nothing changes. */
    method Generate() returns (alerted: bool)
      modifies this
      ensures alerted <==> selectedEmployee == "" || selectedYear == ""
      ensures reportGenerated == (old(reportGenerated) || !alerted)
      ensures selectedEmployee == old(selectedEmployee) && selectedYear == old(selectedYear)
    {
      if selectedEmployee == "" || selectedYear == "" {
        return true;
      }
      reportGenerated := true;
      alerted := false;
    }
  }
}
