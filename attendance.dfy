/**
 * The attendance book kept by the server (index.tsx, the attendance routes):
 * one record per employee and UTC day, updated by clock-in and clock-out
 * events, and the two optional filters of the attendance listing.
 *
 * A clock timestamp is modelled as the instant, in milliseconds, that the
 * server's `new Date(timestamp)` parses it to.
 */
module AttendanceLog {
  import opened Domain
  import opened DateUtils
  import opened Aggregation

  const MsPerHour: int := 1000 * 60 * 60

  /** The key of an employee's record for a day: `attendance:<employeeId>:<date>`. */
  function AttendanceKey(employeeId: string, date: string): (key: string)
    ensures StartsWith(key, "attendance:")
    ensures key[|"attendance:"|..] == employeeId + ":" + date
  {
    StartsWithConcat("attendance:", employeeId + ":" + date);
    "attendance:" + employeeId + ":" + date
  }

  /** Distinct employees never share a day's key, nor do distinct days (when ids hold no ':'). */
  lemma {:induction false} AttendanceKeyInjective(e1: string, d1: string, e2: string, d2: string)
    requires ':' !in e1 && ':' !in e2
    requires AttendanceKey(e1, d1) == AttendanceKey(e2, d2)
    ensures e1 == e2 && d1 == d2
  {
    var s1 := e1 + ":" + d1;
    var s2 := e2 + ":" + d2;
    assert s1 == s2 by {
      assert AttendanceKey(e1, d1)[|"attendance:"|..] == s1;
    }
    SplitFirstAtSeparator(e1, ':', d1);
    SplitFirstAtSeparator(e2, ':', d2);
    assert d1 == s1[|e1| + 1..] && d2 == s2[|e2| + 1..];
  }

  /** Splitting `head + sep + tail` at its first `sep` gives back `head` when `head` holds none. */
  lemma {:induction false} SplitFirstAtSeparator(head: string, sep: char, tail: string)
    requires sep !in head
    ensures SplitFirst(head + [sep] + tail, sep) == head
  {
    if head != [] {
      assert (head + [sep] + tail)[1..] == head[1..] + [sep] + tail;
      SplitFirstAtSeparator(head[1..], sep, tail);
    }
  }

  /** The record the server starts from when the day has none yet. */
  function FreshAttendance(employeeId: string, date: string): (a: Attendance)
    ensures a.id == AttendanceKey(employeeId, date) && a.employeeId == employeeId && a.date == date
    ensures a.clockIn.None? && a.clockOut.None? && a.hours == 0.0
  {
    Attendance(AttendanceKey(employeeId, date), employeeId, date, None, None, 0.0)
  }

  /** Hours between two instants: `(clockOutTime - clockInTime) / (1000 * 60 * 60)`. */
  function ElapsedHours(clockIn: int, clockOut: int): (h: real)
    ensures h * MsPerHour as real == (clockOut - clockIn) as real
    ensures h >= 0.0 <==> clockIn <= clockOut
  {
    (clockOut - clockIn) as real / MsPerHour as real
  }

  /**
   * One event applied to a record: `in` records the clock-in time, `out`
   * records the clock-out time and, when the record has a clock-in time,
   * the hours between the two; any other type leaves the record as it is.
   */
  function ApplyEvent(a: Attendance, eventType: string, timestamp: int): (b: Attendance)
    ensures b.id == a.id && b.employeeId == a.employeeId && b.date == a.date
    ensures eventType == "in" ==> b == a.(clockIn := Some(timestamp))
    ensures eventType == "out" ==> b.clockIn == a.clockIn && b.clockOut == Some(timestamp)
    ensures eventType == "out" && a.clockIn.Some? ==>
              b.hours * MsPerHour as real == (timestamp - a.clockIn.value) as real
    ensures eventType == "out" && a.clockIn.None? ==> b.hours == a.hours
    ensures eventType != "in" && eventType != "out" ==> b == a
  {
    if eventType == "in" then a.(clockIn := Some(timestamp))
    else if eventType == "out" then
      var hours := if a.clockIn.Some? then ElapsedHours(a.clockIn.value, timestamp) else a.hours;
      a.(clockOut := Some(timestamp), hours := hours)
    else a
  }

  /** Clocking in and then out on a fresh day records exactly the time worked. */
  lemma InThenOut(employeeId: string, date: string, tIn: int, tOut: int)
    ensures var b := ApplyEvent(ApplyEvent(FreshAttendance(employeeId, date), "in", tIn), "out", tOut);
            b.clockIn == Some(tIn) && b.clockOut == Some(tOut) && b.hours == ElapsedHours(tIn, tOut)
            && (tIn <= tOut ==> b.hours >= 0.0)
  {
    var a := ApplyEvent(FreshAttendance(employeeId, date), "in", tIn);
    var b := ApplyEvent(a, "out", tOut);
    assert b.hours * MsPerHour as real == ElapsedHours(tIn, tOut) * MsPerHour as real;
  }

  /** Clocking out without a clock-in keeps zero hours. */
  lemma OutWithoutIn(employeeId: string, date: string, tOut: int)
    ensures ApplyEvent(FreshAttendance(employeeId, date), "out", tOut).hours == 0.0
  {
  }

  /** A second clock-in replaces the first, so the hours run from the latest clock-in. */
  lemma LatestClockInWins(a: Attendance, t1: int, t2: int, tOut: int)
    ensures ApplyEvent(ApplyEvent(a, "in", t1), "in", t2) == ApplyEvent(a, "in", t2)
    ensures ApplyEvent(ApplyEvent(ApplyEvent(a, "in", t1), "in", t2), "out", tOut).hours == ElapsedHours(t2, tOut)
  {
    var b := ApplyEvent(ApplyEvent(ApplyEvent(a, "in", t1), "in", t2), "out", tOut);
    assert b.hours * MsPerHour as real == ElapsedHours(t2, tOut) * MsPerHour as real;
  }

  /** Clocking out twice keeps the later clock-out and its hours. */
  lemma LatestClockOutWins(a: Attendance, t1: int, t2: int)
    ensures ApplyEvent(ApplyEvent(a, "out", t1), "out", t2).clockOut == Some(t2)
    ensures a.clockIn.Some? ==>
              ApplyEvent(ApplyEvent(a, "out", t1), "out", t2).hours == ElapsedHours(a.clockIn.value, t2)
  {
    if a.clockIn.Some? {
      var b := ApplyEvent(ApplyEvent(a, "out", t1), "out", t2);
      assert b.hours * MsPerHour as real == ElapsedHours(a.clockIn.value, t2) * MsPerHour as real;
    }
  }

  /** `a.employeeId === employeeId`. */
  function OfEmployee(employeeId: string): Attendance -> bool {
    (a: Attendance) => a.employeeId == employeeId
  }

  /** `a.date?.startsWith(month)`. */
  function OnMonth(month: string): Attendance -> bool {
    (a: Attendance) => StartsWith(a.date, month)
  }

  /** A query parameter that is present and not empty (JavaScript truthiness of a string). */
  predicate Given(p: Option<string>) {
    p.Some? && p.value != ""
  }

  /** The attendance listing: each filter applies only when its parameter is given. */
  function SelectAttendances(attendances: seq<Attendance>, employeeId: Option<string>, month: Option<string>)
    : seq<Attendance>
  {
    var byEmployee := if Given(employeeId) then Filter(attendances, OfEmployee(employeeId.value)) else attendances;
    if Given(month) then Filter(byEmployee, OnMonth(month.value)) else byEmployee
  }

  /** A record is listed, as often as it is stored, exactly when it passes every given filter. */
  lemma {:induction false} SelectAttendancesExactly(attendances: seq<Attendance>, employeeId: Option<string>,
                                                    month: Option<string>, a: Attendance)
    ensures multiset(SelectAttendances(attendances, employeeId, month))[a] ==
              if (Given(employeeId) ==> a.employeeId == employeeId.value)
                 && (Given(month) ==> StartsWith(a.date, month.value))
              then multiset(attendances)[a] else 0
  {
    var byEmployee := if Given(employeeId) then Filter(attendances, OfEmployee(employeeId.value)) else attendances;
    if Given(employeeId) {
      FilterCount(attendances, OfEmployee(employeeId.value), a);
    }
    if Given(month) {
      FilterCount(byEmployee, OnMonth(month.value), a);
    }
  }

  /** Without parameters the listing is every stored record, in scan order. */
  lemma SelectAllWithoutFilters(attendances: seq<Attendance>)
    ensures SelectAttendances(attendances, None, Some("")) == attendances
  {
  }
}
