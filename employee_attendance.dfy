/**
 * The employee attendance page (EmployeeAttendance.tsx): an employee's name
 * and the hours and pay of the attendances the page loaded for the selected
 * month.
 */
module EmployeeAttendance {
  import opened Domain
  import opened Aggregation
  import opened AttendanceLog

  /** `employees.find(e => e.id === employeeId)`: the first employee with that id. */
  function FindEmployee(employees: seq<Employee>, employeeId: string): (r: Option<Employee>)
    ensures r.None? <==> forall k :: 0 <= k < |employees| ==> employees[k].id != employeeId
    ensures r.Some? ==> exists k :: 0 <= k < |employees| && employees[k] == r.value && r.value.id == employeeId
                                    && forall j :: 0 <= j < k ==> employees[j].id != employeeId
  {
    var k := FirstMatch(employees, employeeId);
    if k < |employees| then Some(employees[k]) else None
  }

  /** The index of the first employee with that id, or the length when there is none. */
  function FirstMatch(employees: seq<Employee>, employeeId: string): (k: nat)
    ensures k <= |employees|
    ensures forall j :: 0 <= j < k ==> employees[j].id != employeeId
    ensures k < |employees| ==> employees[k].id == employeeId
  {
    if employees == [] || employees[0].id == employeeId then 0
    else 1 + FirstMatch(employees[1..], employeeId)
  }

  /** `employee?.name || 'Unknown'`. */
  function EmployeeName(employees: seq<Employee>, employeeId: string): (name: string)
    ensures name != ""
    ensures FindEmployee(employees, employeeId).Some? && FindEmployee(employees, employeeId).value.name != ""
            ==> name == FindEmployee(employees, employeeId).value.name
    ensures name == "Unknown" <==> FindEmployee(employees, employeeId).None?
                                   || FindEmployee(employees, employeeId).value.name in {"", "Unknown"}
  {
    var e := FindEmployee(employees, employeeId);
    if e.Some? && e.value.name != "" then e.value.name else "Unknown"
  }

  /** The name shown for an id is the name of the first employee holding it. */
  lemma NameOfFirstMatch(employees: seq<Employee>, k: int)
    requires 0 <= k < |employees| && employees[k].name != ""
    requires forall j :: 0 <= j < k ==> employees[j].id != employees[k].id
    ensures EmployeeName(employees, employees[k].id) == employees[k].name
  {
    var r := FindEmployee(employees, employees[k].id);
    var i :| 0 <= i < |employees| && employees[i] == r.value && r.value.id == employees[k].id
             && forall j :: 0 <= j < i ==> employees[j].id != employees[k].id;
    assert i == k;
  }

  function AttendanceHours(a: Attendance): real {
    a.hours
  }

  datatype MonthlyStats = MonthlyStats(totalHours: real, totalSalary: real)

  /** Hours an employee worked, by recursion over the attendances (the reference for the page's sum). */
  function HoursOf(attendances: seq<Attendance>, employeeId: string): real {
    if attendances == [] then 0.0
    else (if attendances[0].employeeId == employeeId then attendances[0].hours else 0.0)
         + HoursOf(attendances[1..], employeeId)
  }

  /** `getEmployeeMonthlyStats`: zero for an unknown id; otherwise the hours and hours times rate. */
  function EmployeeMonthlyStats(employees: seq<Employee>, attendances: seq<Attendance>, employeeId: string)
    : (stats: MonthlyStats)
    ensures FindEmployee(employees, employeeId).None? ==> stats == MonthlyStats(0.0, 0.0)
    ensures FindEmployee(employees, employeeId).Some? ==>
              stats.totalHours == HoursOf(attendances, employeeId)
              && stats.totalSalary == stats.totalHours * FindEmployee(employees, employeeId).value.hourlyRate
  {
    var employee := FindEmployee(employees, employeeId);
    if employee.None? then MonthlyStats(0.0, 0.0)
    else
      var worked := Filter(attendances, OfEmployee(employeeId));
      var totalHours := RealSumBy(worked, AttendanceHours);
      HoursOfIsFilteredSum(attendances, employeeId);
      MonthlyStats(totalHours, totalHours * employee.value.hourlyRate)
  }

  lemma {:induction false} HoursOfIsFilteredSum(attendances: seq<Attendance>, employeeId: string)
    ensures RealSumBy(Filter(attendances, OfEmployee(employeeId)), AttendanceHours) == HoursOf(attendances, employeeId)
  {
    if attendances != [] {
      HoursOfIsFilteredSum(attendances[1..], employeeId);
      var head := if attendances[0].employeeId == employeeId then [attendances[0]] else [];
      assert Filter(attendances, OfEmployee(employeeId)) == head + Filter(attendances[1..], OfEmployee(employeeId));
      RealSumByAppend(head, Filter(attendances[1..], OfEmployee(employeeId)), AttendanceHours);
    }
  }

  /** Attendances of other employees never change an employee's stats. */
  lemma {:induction false} OthersDoNotCount(employees: seq<Employee>, attendances: seq<Attendance>,
                                            others: seq<Attendance>, employeeId: string)
    requires forall k :: 0 <= k < |others| ==> others[k].employeeId != employeeId
    ensures EmployeeMonthlyStats(employees, attendances + others, employeeId)
            == EmployeeMonthlyStats(employees, attendances, employeeId)
    ensures EmployeeMonthlyStats(employees, others + attendances, employeeId)
            == EmployeeMonthlyStats(employees, attendances, employeeId)
  {
    HoursOfAppend(attendances, others, employeeId);
    HoursOfAppend(others, attendances, employeeId);
    HoursOfNone(others, employeeId);
  }

  lemma {:induction false} HoursOfAppend(xs: seq<Attendance>, ys: seq<Attendance>, employeeId: string)
    ensures HoursOf(xs + ys, employeeId) == HoursOf(xs, employeeId) + HoursOf(ys, employeeId)
  {
    if xs == [] {
      assert xs + ys == ys;
    } else {
      assert (xs + ys)[1..] == xs[1..] + ys;
      HoursOfAppend(xs[1..], ys, employeeId);
    }
  }

  lemma {:induction false} HoursOfNone(xs: seq<Attendance>, employeeId: string)
    requires forall k :: 0 <= k < |xs| ==> xs[k].employeeId != employeeId
    ensures HoursOf(xs, employeeId) == 0.0
  {
    if xs != [] {
      HoursOfNone(xs[1..], employeeId);
    }
  }

  /**
   * The page loads the month's attendances; narrowing those to the employee
   * keeps the same records as asking the server for that employee and month.
   */
  lemma {:induction false} MonthThenEmployee(attendances: seq<Attendance>, employeeId: string, month: string,
                                             a: Attendance)
    requires employeeId != "" && month != ""
    ensures multiset(Filter(SelectAttendances(attendances, None, Some(month)), OfEmployee(employeeId)))[a]
            == multiset(SelectAttendances(attendances, Some(employeeId), Some(month)))[a]
  {
    FilterCount(SelectAttendances(attendances, None, Some(month)), OfEmployee(employeeId), a);
    SelectAttendancesExactly(attendances, None, Some(month), a);
    SelectAttendancesExactly(attendances, Some(employeeId), Some(month), a);
  }
}
