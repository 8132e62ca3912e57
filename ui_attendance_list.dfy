/**
 * The administrator's attendance list (`src/components/admin/AttendanceList.jsx`):
 * who may manage it, stepping the shown date a day at a time, the search by
 * employee name, the count of present employees and the status badges.
 */
module AttendanceListUi {
  import opened Common
  import opened Dates

  /** `isAdmin`: the roles that see the whole company's attendance. */
  function IsAdmin(userRole: string): (admin: bool)
    ensures admin <==> userRole in {"Administrator", "HR Officer", "Payroll Officer"}
  {
    userRole == "Administrator" || userRole == "HR Officer" || userRole == "Payroll Officer"
  }

  const AdminDescription := "View and manage attendance records for all employees"
  const EmployeeDescription := "View your day-wise attendance for the ongoing month"

  /** The line under the page title. */
  function Description(userRole: string): (text: string)
    ensures text == AdminDescription <==> IsAdmin(userRole)
    ensures text == EmployeeDescription <==> !IsAdmin(userRole)
  {
    if IsAdmin(userRole) then AdminDescription else EmployeeDescription
  }

  /** A row of the list. */
  datatype AttendanceRecord = AttendanceRecord(id: string, employeeName: string, employeeId: string, date: string,
                                               checkIn: string, checkOut: string, workHours: string,
                                               extraHours: string, status: string)

  /** `filteredRecords`: the rows whose employee name contains the query, ignoring case, in order. */
  function FilterByName(records: seq<AttendanceRecord>, query: string): (r: seq<AttendanceRecord>)
    ensures |r| <= |records|
    ensures forall x :: x in r <==> x in records && ContainsIgnoringCase(query, x.employeeName)
  {
    Keep(records, (x: AttendanceRecord) => ContainsIgnoringCase(query, x.employeeName))
  }

  /** An empty query shows every row. */
  lemma EmptyQueryShowsAll(records: seq<AttendanceRecord>)
    ensures FilterByName(records, "") == records
  {
    forall k | 0 <= k < |records| ensures ContainsIgnoringCase("", records[k].employeeName) {
      EmptyAlwaysContained(Lower(records[k].employeeName));
    }
    KeepAll(records, (x: AttendanceRecord) => ContainsIgnoringCase("", x.employeeName));
  }

  /** `presentCount`: the shown rows whose status is "Present"; never more than the rows shown. */
  function PresentCount(records: seq<AttendanceRecord>, query: string): (n: nat)
    ensures n <= |FilterByName(records, query)|
  {
    |Keep(FilterByName(records, query), (x: AttendanceRecord) => x.status == "Present")|
  }

  /** One more row raises the count by one exactly when the row is shown and present. */
  lemma PresentCountAppend(records: seq<AttendanceRecord>, x: AttendanceRecord, query: string)
    ensures PresentCount(records + [x], query)
            == PresentCount(records, query) + (if ContainsIgnoringCase(query, x.employeeName) && x.status == "Present" then 1 else 0)
  {
    KeepAppend(records, x, (y: AttendanceRecord) => ContainsIgnoringCase(query, y.employeeName));
    var shown := FilterByName(records, query);
    if ContainsIgnoringCase(query, x.employeeName) {
      assert FilterByName(records + [x], query) == shown + [x];
      KeepAppend(shown, x, (y: AttendanceRecord) => y.status == "Present");
    } else {
      assert FilterByName(records + [x], query) == shown;
    }
  }

  /** `getStatusClass`: the four known statuses have a badge of their own, anything else the default one. */
  function StatusClass(status: string): (cls: string)
    ensures status == "Present" <==> cls == "status-present"
    ensures status == "Absent" <==> cls == "status-absent"
    ensures status == "Leave" <==> cls == "status-leave"
    ensures status == "Half Day" <==> cls == "status-halfday"
    ensures cls == "status-default" <==> status !in {"Present", "Absent", "Leave", "Half Day"}
  {
    match status
    case "Present" => "status-present"
    case "Absent" => "status-absent"
    case "Leave" => "status-leave"
    case "Half Day" => "status-halfday"
    case _ => "status-default"
  }

  /** The page state. */
  class AttendanceListPage {
    var selectedDate: Date
    var searchQuery: string
    var viewMode: string

    predicate Valid()
      reads this
    {
      Dates.Valid(selectedDate)
    }

    constructor(today: Date)
      requires Dates.Valid(today)
      ensures Valid() && selectedDate == today && searchQuery == "" && viewMode == "date"
    {
      selectedDate := today;
      searchQuery := "";
      viewMode := "date";
    }

    /** The rows on show for the current query. */
    function Shown(records: seq<AttendanceRecord>): (r: seq<AttendanceRecord>)
      reads this
      ensures forall x :: x in r <==> x in records && ContainsIgnoringCase(searchQuery, x.employeeName)
    {
      FilterByName(records, searchQuery)
    }

    /** `handlePreviousDate`: the day before. */
    method PreviousDate()
      requires Valid() && selectedDate != Date(1, 1, 1)
      modifies this
      ensures Valid() && Ordinal(selectedDate) + 1 == Ordinal(old(selectedDate))
      ensures selectedDate == PrevDay(old(selectedDate))
      ensures searchQuery == old(searchQuery) && viewMode == old(viewMode)
    {
      selectedDate := PrevDay(selectedDate);
    }

    /** `handleNextDate`: the day after. */
    method NextDate()
      requires Valid()
      modifies this
      ensures Valid() && Ordinal(selectedDate) == Ordinal(old(selectedDate)) + 1
      ensures selectedDate == NextDay(old(selectedDate))
      ensures searchQuery == old(searchQuery) && viewMode == old(viewMode)
    {
      selectedDate := NextDay(selectedDate);
    }
  }
}
