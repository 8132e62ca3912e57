/**
 * The employee pages of the web front ends: the administrator's page with
 * its own list (`src/components/admin/EmployeesPage.jsx`), the page fed by
 * the users API (`src/components/EmployeesPage.jsx`), the HR directory of the
 * second front end (`Prod/src/components/hr/EmployeeDirectory.tsx`) and the
 * read-only directory (`src/components/employee/EmployeeDirectory.jsx`).
 */
module Employees {
  import opened Common

  // ---------------------------------------------------------------------
  // Search

  /** The search box of every employee page: the term, ignoring case, in the name, the email, the department or the job title. */
  predicate Matches(term: string, name: string, email: string, department: string, jobTitle: string) {
    ContainsIgnoringCase(term, name) || ContainsIgnoringCase(term, email)
    || ContainsIgnoringCase(term, department) || ContainsIgnoringCase(term, jobTitle)
  }

  /** An empty search term matches every employee. */
  lemma EmptyTermMatches(name: string, email: string, department: string, jobTitle: string)
    ensures Matches("", name, email, department, jobTitle)
  {
    EmptyAlwaysContained(Lower(name));
  }

  // ---------------------------------------------------------------------
  // Employee records of the administrator's page and of the directories

  /**
   * An employee card. `attendanceStatus` is shown by the first front end,
   * `status` ("Active" or "Inactive") by the second; a page that has no such
   * field leaves it empty.
   */
  datatype Employee = Employee(id: string, name: string, email: string, phone: string, jobTitle: string,
                               department: string, joinDate: string, attendanceStatus: string, status: string)

  /** The fields an edit dialog can change; the id is not among them. */
  datatype Field = Name | Email | Phone | JobTitle | Department

  function WithField(e: Employee, field: Field, value: string): (r: Employee)
    ensures r.id == e.id && r.joinDate == e.joinDate && r.attendanceStatus == e.attendanceStatus && r.status == e.status
  {
    match field
    case Name => e.(name := value)
    case Email => e.(email := value)
    case Phone => e.(phone := value)
    case JobTitle => e.(jobTitle := value)
    case Department => e.(department := value)
  }

  /** `filteredEmployees`: the employees the search term matches, in order. */
  function Search(employees: seq<Employee>, term: string): (r: seq<Employee>)
    ensures |r| <= |employees|
    ensures forall e :: e in r <==> e in employees && Matches(term, e.name, e.email, e.department, e.jobTitle)
  {
    Keep(employees, (e: Employee) => Matches(term, e.name, e.email, e.department, e.jobTitle))
  }

  /** An empty search box lists everyone. */
  lemma EmptySearchKeepsAll(employees: seq<Employee>)
    ensures Search(employees, "") == employees
  {
    forall k | 0 <= k < |employees|
      ensures Matches("", employees[k].name, employees[k].email, employees[k].department, employees[k].jobTitle)
    {
      EmptyTermMatches(employees[k].name, employees[k].email, employees[k].department, employees[k].jobTitle);
    }
    KeepAll(employees, (e: Employee) => Matches("", e.name, e.email, e.department, e.jobTitle));
  }

  /** `employees.map(emp => emp.id === x.id ? x : emp)`. */
  function ReplaceById(employees: seq<Employee>, x: Employee): (r: seq<Employee>)
    ensures |r| == |employees|
    ensures forall k :: 0 <= k < |r| ==> r[k] == if employees[k].id == x.id then x else employees[k]
  {
    seq(|employees|, k requires 0 <= k < |employees| => if employees[k].id == x.id then x else employees[k])
  }

  /** The title of the status indicator (`getStatusIndicator`, and the status line of a profile). */
  function StatusLabel(attendanceStatus: string): (title: string)
    ensures title == "Present" <==> attendanceStatus == "present"
    ensures title == "On Leave" <==> attendanceStatus == "on-leave"
    ensures title == "Absent" <==> attendanceStatus != "present" && attendanceStatus != "on-leave"
  {
    if attendanceStatus == "present" then "Present"
    else if attendanceStatus == "on-leave" then "On Leave"
    else "Absent"
  }

  // ---------------------------------------------------------------------
  // The administrator's employee page

  datatype NewEmployeeForm = NewEmployeeForm(name: string, email: string, phone: string, jobTitle: string, department: string)

  const BlankNewEmployee := NewEmployeeForm("", "", "", "", "")

  /** The number in an id of the form "WZ-<digits>", and -1 for any other id. */
  function IdNumber(id: string): int {
    if |id| >= 3 && id[..3] == "WZ-" then ParseDigits(id[3..]) else -1
  }

  /** The id the page gives the next employee: "WZ-" and 1243 plus the number of employees. */
  function NextId(count: nat): (id: string)
    ensures IdNumber(id) == 1243 + count
  {
    var id := "WZ-" + NatToString(1243 + count);
    assert id[..3] == "WZ-" && id[3..] == NatToString(1243 + count);
    NatToStringRoundTrip(1243 + count);
    id
  }

  /** No two employees share an id. */
  predicate DistinctIds(employees: seq<Employee>) {
    forall i, j :: 0 <= i < j < |employees| ==> employees[i].id != employees[j].id
  }

  /** Every id numbered below the next one to be given out, and no id twice. */
  predicate IdsBelowNext(employees: seq<Employee>) {
    DistinctIds(employees) && forall k :: 0 <= k < |employees| ==> IdNumber(employees[k].id) < 1243 + |employees|
  }

  /** The id handed out next belongs to nobody yet. */
  lemma NextIdIsFresh(employees: seq<Employee>)
    requires IdsBelowNext(employees)
    ensures forall k :: 0 <= k < |employees| ==> employees[k].id != NextId(|employees|)
  {
  }

  /** Appending an employee that carries the next id keeps the ids distinct and below the next one. */
  lemma AppendNextKeepsIds(employees: seq<Employee>, e: Employee)
    requires IdsBelowNext(employees) && e.id == NextId(|employees|)
    ensures IdsBelowNext(employees + [e])
  {
    var grown := employees + [e];
    NextIdIsFresh(employees);
    forall i, j | 0 <= i < j < |grown|
      ensures grown[i].id != grown[j].id
    {
      if j == |employees| {
        assert grown[i] == employees[i];
      } else {
        assert grown[i] == employees[i] && grown[j] == employees[j];
      }
    }
    forall k | 0 <= k < |grown|
      ensures IdNumber(grown[k].id) < 1243 + |grown|
    {
      if k < |employees| {
        assert grown[k] == employees[k];
      }
    }
  }

  /** The record "Add Employee" builds from the form. */
  function NewEmployee(form: NewEmployeeForm, count: nat, today: string): (e: Employee)
    ensures e.id == NextId(count) && e.name == form.name && e.email == form.email && e.department == form.department
    ensures e.phone == (if form.phone == "" then "N/A" else form.phone)
    ensures e.jobTitle == (if form.jobTitle == "" then "Not Specified" else form.jobTitle)
    ensures e.phone != "" && e.jobTitle != ""
    ensures e.joinDate == today && e.attendanceStatus == "absent"
  {
    Employee(NextId(count), form.name, form.email, if form.phone == "" then "N/A" else form.phone,
             if form.jobTitle == "" then "Not Specified" else form.jobTitle, form.department, today, "absent", "")
  }

  /** The three fields both dialogs insist on. */
  predicate HasRequired(name: string, email: string, department: string) {
    name != "" && email != "" && department != ""
  }

  /** The administrator's employee page. */
  class AdminEmployeesPage {
    var employees: seq<Employee>
    var searchTerm: string
    var selectedEmployee: Option<Employee>
    var showAddDialog: bool
    var showEditDialog: bool
    var editEmployee: Option<Employee>
    var newEmployee: NewEmployeeForm

    /** The ids stay distinct: every id is numbered below the next one given out. */
    predicate Valid()
      reads this
    {
      IdsBelowNext(employees)
    }

    constructor(employees: seq<Employee>)
      requires IdsBelowNext(employees)
      ensures Valid() && this.employees == employees && searchTerm == ""
      ensures selectedEmployee == None && editEmployee == None && !showAddDialog && !showEditDialog
      ensures newEmployee == BlankNewEmployee
    {
      this.employees := employees;
      searchTerm := "";
      selectedEmployee := None;
      showAddDialog := false;
      showEditDialog := false;
      editEmployee := None;
      newEmployee := BlankNewEmployee;
    }

    /** The cards on show. */
    function Shown(): (r: seq<Employee>)
      reads this
      ensures forall e :: e in r <==> e in employees && Matches(searchTerm, e.name, e.email, e.department, e.jobTitle)
    {
      Search(employees, searchTerm)
    }

    /** "Add Employee": with a name, an email and a department the new record is appended, the dialog closes and the form is blanked; otherwise nothing changes and the page alerts. */
    method Add(today: string) returns (added: bool)
      requires Valid()
      modifies this
      ensures Valid()
      ensures added <==> HasRequired(old(newEmployee).name, old(newEmployee).email, old(newEmployee).department)
      ensures added ==> employees == old(employees) + [NewEmployee(old(newEmployee), |old(employees)|, today)]
                        && !showAddDialog && newEmployee == BlankNewEmployee
      ensures !added ==> employees == old(employees) && showAddDialog == old(showAddDialog) && newEmployee == old(newEmployee)
      ensures forall k :: 0 <= k < |old(employees)| ==> employees[k].id != NextId(|old(employees)|)
      ensures selectedEmployee == old(selectedEmployee) && editEmployee == old(editEmployee)
      ensures showEditDialog == old(showEditDialog) && searchTerm == old(searchTerm)
    {
      NextIdIsFresh(employees);
      if !HasRequired(newEmployee.name, newEmployee.email, newEmployee.department) {
        return false;
      }
      var e := NewEmployee(newEmployee, |employees|, today);
      AppendNextKeepsIds(employees, e);
      employees := employees + [e];
      showAddDialog := false;
      newEmployee := BlankNewEmployee;
      added := true;
    }

    /** "Cancel" on the add dialog closes it and blanks the form. */
    method CancelAdd()
      modifies this
      ensures !showAddDialog && newEmployee == BlankNewEmployee
      ensures employees == old(employees) && selectedEmployee == old(selectedEmployee)
      ensures editEmployee == old(editEmployee) && showEditDialog == old(showEditDialog)
      ensures searchTerm == old(searchTerm)
    {
      showAddDialog := false;
      newEmployee := BlankNewEmployee;
    }

    /** "Edit" on a profile opens the dialog on a copy of the selected employee. */
    method OpenEdit()
      requires selectedEmployee.Some?
      modifies this
      ensures editEmployee == old(selectedEmployee) && showEditDialog
      ensures employees == old(employees) && selectedEmployee == old(selectedEmployee)
      ensures searchTerm == old(searchTerm) && showAddDialog == old(showAddDialog) && newEmployee == old(newEmployee)
    {
      editEmployee := selectedEmployee;
      showEditDialog := true;
    }

    /** Typing in the edit dialog changes that field of the copy only. */
    method EditField(field: Field, value: string)
      requires editEmployee.Some?
      modifies this
      ensures editEmployee == Some(WithField(old(editEmployee).value, field, value))
      ensures employees == old(employees) && selectedEmployee == old(selectedEmployee)
      ensures showEditDialog == old(showEditDialog)
      ensures searchTerm == old(searchTerm) && showAddDialog == old(showAddDialog) && newEmployee == old(newEmployee)
    {
      editEmployee := Some(WithField(editEmployee.value, field, value));
    }

    /** "Save Changes": with the three required fields the edited copy replaces the record with its id and becomes the selected one; otherwise nothing changes and the page alerts. */
    method SaveEdit() returns (saved: bool)
      requires Valid() && editEmployee.Some?
      modifies this
      ensures Valid()
      ensures var x := old(editEmployee).value; saved <==> HasRequired(x.name, x.email, x.department)
      ensures saved ==> employees == ReplaceById(old(employees), old(editEmployee).value)
                        && selectedEmployee == old(editEmployee) && !showEditDialog && editEmployee.None?
      ensures !saved ==> employees == old(employees) && selectedEmployee == old(selectedEmployee)
                         && editEmployee == old(editEmployee) && showEditDialog == old(showEditDialog)
      ensures newEmployee == old(newEmployee) && showAddDialog == old(showAddDialog) && searchTerm == old(searchTerm)
    {
      var x := editEmployee.value;
      if !HasRequired(x.name, x.email, x.department) {
        return false;
      }
      employees := ReplaceById(employees, x);
      selectedEmployee := Some(x);
      showEditDialog := false;
      editEmployee := None;
      saved := true;
    }

    /** "Cancel" on the edit dialog drops the copy. */
    method CancelEdit()
      modifies this
      ensures !showEditDialog && editEmployee.None?
      ensures employees == old(employees) && selectedEmployee == old(selectedEmployee)
      ensures searchTerm == old(searchTerm) && showAddDialog == old(showAddDialog) && newEmployee == old(newEmployee)
    {
      showEditDialog := false;
      editEmployee := None;
    }
  }

  // ---------------------------------------------------------------------
  // The page fed by the users API

  /** A user as the users endpoint returns it; an absent or null text is the empty string. */
  datatype UserRecord = UserRecord(id: int, fullName: string, firstName: string, lastName: string, designation: string,
                                   department: string, email: string, phone: string, joinDate: string, dateJoined: string,
                                   username: string, role: string, status: string)

  datatype StaffCard = StaffCard(id: int, name: string, jobTitle: string, department: string, email: string, phone: string,
                                 joinDate: string, attendanceStatus: string, username: string, role: string, status: string)

  /** The transformation `fetchEmployees` applies to each user: every text the card shows has a fallback. */
  function ToCard(u: UserRecord): (c: StaffCard)
    ensures c.id == u.id && c.email == u.email && c.username == u.username && c.role == u.role && c.status == u.status
    ensures c.name == (if u.fullName != "" then u.fullName else u.firstName + " " + u.lastName)
    ensures u.designation != "" ==> c.jobTitle == u.designation
    ensures u.department != "" ==> c.department == u.department
    ensures u.phone != "" ==> c.phone == u.phone
    ensures c.name != "" && c.jobTitle != "" && c.department != "" && c.phone != ""
    ensures c.joinDate == (if u.joinDate != "" then u.joinDate else u.dateJoined)
    ensures c.attendanceStatus == "present"
  {
    StaffCard(u.id,
              if u.fullName != "" then u.fullName else u.firstName + " " + u.lastName,
              if u.designation != "" then u.designation else "Not specified",
              if u.department != "" then u.department else "Not specified",
              u.email,
              if u.phone != "" then u.phone else "Not provided",
              if u.joinDate != "" then u.joinDate else u.dateJoined,
              "present", u.username, u.role, u.status)
  }

  function ToCards(users: seq<UserRecord>): (r: seq<StaffCard>)
    ensures |r| == |users|
    ensures forall k :: 0 <= k < |r| ==> r[k] == ToCard(users[k])
  {
    seq(|users|, k requires 0 <= k < |users| => ToCard(users[k]))
  }

  /** The card filter of this page, on the same four fields. */
  function SearchCards(cards: seq<StaffCard>, term: string): (r: seq<StaffCard>)
    ensures |r| <= |cards|
    ensures forall c :: c in r <==> c in cards && Matches(term, c.name, c.email, c.department, c.jobTitle)
  {
    Keep(cards, (c: StaffCard) => Matches(term, c.name, c.email, c.department, c.jobTitle))
  }

  /** The registration form of the add modal. */
  datatype RegisterForm = RegisterForm(username: string, email: string, password: string, firstName: string, lastName: string,
                                       phone: string, department: string, designation: string, role: string, salary: string,
                                       joinDate: string)

  /** The form as the page resets it: empty, role "employee", joining today. */
  function BlankRegisterForm(today: string): (f: RegisterForm)
    ensures f.role == "employee" && f.joinDate == today && f.username == "" && f.password == ""
  {
    RegisterForm("", "", "", "", "", "", "", "", "employee", "", today)
  }

  predicate RegisterFormComplete(f: RegisterForm) {
    f.username != "" && f.email != "" && f.password != "" && f.firstName != "" && f.lastName != ""
  }

  /**
   * The browser's checks on the add form, which stop the submit event when
   * they fail: username, email, password, first and last name are
   * `required`, and the email must pass the browser's `type="email"` syntax
   * check, given here as `emailSyntaxOk`. The required fields are exactly
   * the ones `handleAddEmployee` checks again.
   */
  predicate AddFormAccepted(f: RegisterForm, emailSyntaxOk: bool) {
    RegisterFormComplete(f) && emailSyntaxOk
  }

  /** The handler's own message for missing fields, which the browser's checks leave unreachable. */
  const MissingFields := "Please fill in all required fields"
  const AddFailed := "Failed to add employee"
  const LoadFailed := "Failed to load employees"

  /** What a call to the server gave back: success, or an error whose message may be empty. */
  datatype Outcome = Succeeded | Failed(message: string)

  /** `err.message || fallback`. */
  function ErrorText(message: string, fallback: string): (t: string)
    ensures fallback != "" ==> t != ""
    ensures message != "" ==> t == message
  {
    if message != "" then message else fallback
  }

  /** The page fed by the users API. */
  class EmployeeListPage {
    var employees: seq<StaffCard>
    var loading: bool
    var error: Option<string>
    var showAddModal: bool
    var formData: RegisterForm
    var formError: Option<string>
    var submitting: bool

    constructor(today: string)
      ensures employees == [] && loading && error.None? && !showAddModal
      ensures formData == BlankRegisterForm(today) && formError.None? && !submitting
    {
      employees := [];
      loading := true;
      error := None;
      showAddModal := false;
      formData := BlankRegisterForm(today);
      formError := None;
      submitting := false;
    }

    /** `fetchEmployees`, given what the users endpoint answered. */
    method Fetch(users: seq<UserRecord>, outcome: Outcome)
      modifies this
      ensures !loading
      ensures outcome.Succeeded? ==> employees == ToCards(users) && error.None?
      ensures outcome.Failed? ==> employees == old(employees) && error == Some(ErrorText(outcome.message, LoadFailed))
      ensures showAddModal == old(showAddModal) && formData == old(formData)
      ensures formError == old(formError) && submitting == old(submitting)
    {
      loading := true;
      error := None;
      match outcome {
        case Succeeded =>
          employees := ToCards(users);
        case Failed(message) =>
          error := Some(ErrorText(message, LoadFailed));
      }
      loading := false;
    }

    /**
     * Submitting the add form. A form the browser refuses never reaches
     * `handleAddEmployee` and changes nothing, so the handler's own check
     * for missing fields never fires. Otherwise a registration the server
     * refuses shows its message, and a registration it accepts reloads the
     * list, resets the form and closes the modal. The page is no longer
     * submitting afterwards.
     */
    method Add(emailSyntaxOk: bool, register: Outcome, users: seq<UserRecord>, fetch: Outcome, today: string)
      modifies this
      ensures !AddFormAccepted(old(formData), emailSyntaxOk) ==>
                employees == old(employees) && loading == old(loading) && error == old(error)
                && showAddModal == old(showAddModal) && formData == old(formData)
                && formError == old(formError) && submitting == old(submitting)
      ensures AddFormAccepted(old(formData), emailSyntaxOk) ==> !submitting
      ensures AddFormAccepted(old(formData), emailSyntaxOk) && register.Failed? ==>
                formError == Some(ErrorText(register.message, AddFailed)) && employees == old(employees)
                && formData == old(formData) && showAddModal == old(showAddModal) && error == old(error) && loading == old(loading)
      ensures AddFormAccepted(old(formData), emailSyntaxOk) && register.Succeeded? ==>
                formError.None? && formData == BlankRegisterForm(today) && !showAddModal && !loading
                && (fetch.Succeeded? ==> employees == ToCards(users) && error.None?)
                && (fetch.Failed? ==> employees == old(employees) && error == Some(ErrorText(fetch.message, LoadFailed)))
    {
      if !AddFormAccepted(formData, emailSyntaxOk) {
        return;
      }
      formError := None;
      submitting := true;
      if register.Failed? {
        formError := Some(ErrorText(register.message, AddFailed));
      } else {
        Fetch(users, fetch);
        formData := BlankRegisterForm(today);
        showAddModal := false;
      }
      submitting := false;
    }

    /** `handleCloseModal`: closes the modal, clears its error and resets the form. */
    method CloseModal(today: string)
      modifies this
      ensures !showAddModal && formError.None? && formData == BlankRegisterForm(today)
      ensures employees == old(employees) && error == old(error) && submitting == old(submitting)
      ensures loading == old(loading)
    {
      showAddModal := false;
      formError := None;
      formData := BlankRegisterForm(today);
    }
  }

  // ---------------------------------------------------------------------
  // The HR directory of the second front end

  /** The random part of a new id: `Math.floor(1000 + Math.random() * 9000)`. */
  predicate FourDigitNumber(n: nat) {
    1000 <= n <= 9999
  }

  function EngineeringCount(employees: seq<Employee>): nat {
    |Keep(employees, (e: Employee) => e.department == "Engineering")|
  }

  function SalesAndMarketingCount(employees: seq<Employee>): nat {
    |Keep(employees, (e: Employee) => e.department == "Sales" || e.department == "Marketing")|
  }

  function ActiveCount(employees: seq<Employee>): nat {
    |Keep(employees, (e: Employee) => e.status == "Active")|
  }

  /** Appending one employee moves each count by one exactly when the employee belongs to it. */
  lemma CountsAfterAppend(employees: seq<Employee>, e: Employee)
    ensures EngineeringCount(employees + [e]) == EngineeringCount(employees) + (if e.department == "Engineering" then 1 else 0)
    ensures SalesAndMarketingCount(employees + [e])
            == SalesAndMarketingCount(employees) + (if e.department == "Sales" || e.department == "Marketing" then 1 else 0)
    ensures ActiveCount(employees + [e]) == ActiveCount(employees) + (if e.status == "Active" then 1 else 0)
  {
    KeepAppend(employees, e, (x: Employee) => x.department == "Engineering");
    KeepAppend(employees, e, (x: Employee) => x.department == "Sales" || x.department == "Marketing");
    KeepAppend(employees, e, (x: Employee) => x.status == "Active");
  }

  /**
   * The browser's checks on the add and edit dialogs of the HR directory,
   * which stop the submit event when they fail: name, email, phone and job
   * title are `required`, and the email must pass the browser's
   * `type="email"` syntax check, given here as `emailSyntaxOk`.
   */
  predicate DialogFilled(name: string, email: string, phone: string, jobTitle: string, emailSyntaxOk: bool) {
    name != "" && email != "" && phone != "" && jobTitle != "" && emailSyntaxOk
  }

  /** The HR directory. */
  class HrDirectory {
    var employees: seq<Employee>
    var searchTerm: string
    var newEmployee: NewEmployeeForm
    var selectedEmployee: Option<Employee>
    var isAddDialogOpen: bool
    var isEditDialogOpen: bool

    constructor(employees: seq<Employee>)
      ensures this.employees == employees && searchTerm == "" && newEmployee == BlankNewEmployee
      ensures selectedEmployee.None? && !isAddDialogOpen && !isEditDialogOpen
    {
      this.employees := employees;
      searchTerm := "";
      newEmployee := BlankNewEmployee;
      selectedEmployee := None;
      isAddDialogOpen := false;
      isEditDialogOpen := false;
    }

    function Shown(): (r: seq<Employee>)
      reads this
      ensures forall e :: e in r <==> e in employees && Matches(searchTerm, e.name, e.email, e.department, e.jobTitle)
    {
      Search(employees, searchTerm)
    }

    /**
     * Submitting the add dialog. A form the browser refuses never reaches
     * `handleAddEmployee` and changes nothing. Otherwise the handler checks
     * nothing more: the form's fields, a random four-digit id, the status
     * "Active" and today's date make the new record, which is appended; the
     * form is blanked and the dialog closed. The Active count goes up by one.
     */
    method Add(emailSyntaxOk: bool, random: nat, today: string)
      requires FourDigitNumber(random)
      modifies this
      ensures var f := old(newEmployee);
              !DialogFilled(f.name, f.email, f.phone, f.jobTitle, emailSyntaxOk) ==>
                employees == old(employees) && newEmployee == old(newEmployee)
                && isAddDialogOpen == old(isAddDialogOpen)
                && selectedEmployee == old(selectedEmployee) && isEditDialogOpen == old(isEditDialogOpen)
      ensures var f := old(newEmployee);
              DialogFilled(f.name, f.email, f.phone, f.jobTitle, emailSyntaxOk) ==>
                employees == old(employees) + [Employee("WZ-" + NatToString(random), old(newEmployee).name, old(newEmployee).email,
                                                      old(newEmployee).phone, old(newEmployee).jobTitle,
                                                      old(newEmployee).department, today, "", "Active")]
                && ActiveCount(employees) == ActiveCount(old(employees)) + 1
                && newEmployee == BlankNewEmployee && !isAddDialogOpen
                && selectedEmployee == old(selectedEmployee) && isEditDialogOpen == old(isEditDialogOpen)
      ensures searchTerm == old(searchTerm)
    {
      var f := newEmployee;
      if !DialogFilled(f.name, f.email, f.phone, f.jobTitle, emailSyntaxOk) {
        return;
      }
      var e := Employee("WZ-" + NatToString(random), f.name, f.email, f.phone, f.jobTitle, f.department, today, "", "Active");
      CountsAfterAppend(employees, e);
      employees := employees + [e];
      newEmployee := BlankNewEmployee;
      isAddDialogOpen := false;
    }

    /** The edit button of a row opens the dialog on a copy of that employee. */
    method OpenEdit(e: Employee)
      modifies this
      ensures selectedEmployee == Some(e) && isEditDialogOpen
      ensures employees == old(employees) && newEmployee == old(newEmployee)
      ensures searchTerm == old(searchTerm) && isAddDialogOpen == old(isAddDialogOpen)
    {
      selectedEmployee := Some(e);
      isEditDialogOpen := true;
    }

    /** Typing in the edit dialog changes that field of the copy only. */
    method EditField(field: Field, value: string)
      requires selectedEmployee.Some?
      modifies this
      ensures selectedEmployee == Some(WithField(old(selectedEmployee).value, field, value))
      ensures employees == old(employees) && isEditDialogOpen == old(isEditDialogOpen)
      ensures searchTerm == old(searchTerm) && newEmployee == old(newEmployee) && isAddDialogOpen == old(isAddDialogOpen)
    {
      selectedEmployee := Some(WithField(selectedEmployee.value, field, value));
    }

    /**
     * Submitting the edit dialog. A copy the browser refuses never reaches
     * `handleEditEmployee` and changes nothing; without a selected employee
     * nothing happens either; otherwise the copy replaces the records with
     * its id and the dialog closes.
     */
    method SaveEdit(emailSyntaxOk: bool)
      modifies this
      ensures var e := old(selectedEmployee);
              e.None? || !DialogFilled(e.value.name, e.value.email, e.value.phone, e.value.jobTitle, emailSyntaxOk) ==>
                employees == old(employees) && isEditDialogOpen == old(isEditDialogOpen)
      ensures var e := old(selectedEmployee);
              e.Some? && DialogFilled(e.value.name, e.value.email, e.value.phone, e.value.jobTitle, emailSyntaxOk) ==>
                employees == ReplaceById(old(employees), e.value) && !isEditDialogOpen
      ensures forall k :: 0 <= k < |employees| ==> employees[k].id == old(employees)[k].id
      ensures |employees| == |old(employees)| && selectedEmployee == old(selectedEmployee)
      ensures searchTerm == old(searchTerm) && newEmployee == old(newEmployee) && isAddDialogOpen == old(isAddDialogOpen)
    {
      if selectedEmployee.Some? && DialogFilled(selectedEmployee.value.name, selectedEmployee.value.email,
                                                selectedEmployee.value.phone, selectedEmployee.value.jobTitle,
                                                emailSyntaxOk) {
        employees := ReplaceById(employees, selectedEmployee.value);
        isEditDialogOpen := false;
      }
    }
  }
}
