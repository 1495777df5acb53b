/**
 * The request handlers of index.tsx that compute something: the monthly
 * report, the profit-sharing calculation, the attendance clock-in/clock-out
 * and listing routes, and the month selection and file names of the JSON and
 * simple CSV exports. Authentication, HTTP plumbing and logging are left out;
 * the current instant is a parameter.
 *
 * Each handler reads the store with `GetByPrefix`, whose order is left open;
 * the ghost out-parameters name the keys a call visited, in its order.
 */
module Server {
  import opened Domain
  import opened Aggregation
  import opened Csv
  import opened DateUtils
  import opened Store
  import opened AttendanceLog

  datatype Response<T> = Ok(body: T) | Fail(status: int, message: string)

  // ---------------------------------------------------------------------
  // GET /reports/monthly (index.tsx:533-578)
  // ---------------------------------------------------------------------

  /** The report over the incomes and expenses a pair of scans found. */
  function ReportOf(data: map<string, Value>, month: string, incomeKeys: seq<string>, expenseKeys: seq<string>)
    : (r: MonthlyReport)
    requires forall i :: 0 <= i < |incomeKeys| ==> incomeKeys[i] in data
    requires forall i :: 0 <= i < |expenseKeys| ==> expenseKeys[i] in data
    ensures r.totalIncome == MonthIncomeSum(Incomes(ValuesAt(data, incomeKeys)), month)
    ensures r.totalExpense == MonthExpenseSum(Expenses(ValuesAt(data, expenseKeys)), month)
    ensures r.profit == r.totalIncome - r.totalExpense
  {
    BuildReport(month, Incomes(ValuesAt(data, incomeKeys)), Expenses(ValuesAt(data, expenseKeys)))
  }

  /**
   * The monthly report: a missing or empty month is refused with status 400
   * before the store is read; otherwise the report over the stored records.
   */
  method MonthlyReportRoute(kv: KvStore, month: Option<string>)
    returns (r: Response<MonthlyReport>, ghost incomeKeys: seq<string>, ghost expenseKeys: seq<string>)
    requires kv.Valid()
    ensures !Given(month) ==> r == Fail(400, "Month parameter is required") && incomeKeys == [] && expenseKeys == []
    ensures Given(month) ==>
              IsScan(kv.data, IncomePrefix, incomeKeys) && IsScan(kv.data, ExpensePrefix, expenseKeys)
              && r == Ok(ReportOf(kv.data, month.value, incomeKeys, expenseKeys))
  {
    if !Given(month) {
      return Fail(400, "Month parameter is required"), [], [];
    }
    var incomeValues, expenseValues;
    incomeValues, incomeKeys := kv.GetByPrefix(IncomePrefix);
    expenseValues, expenseKeys := kv.GetByPrefix(ExpensePrefix);
    assert incomeValues == ValuesAt(kv.data, incomeKeys);
    assert expenseValues == ValuesAt(kv.data, expenseKeys);

    var report := BuildReport(month.value, Incomes(incomeValues), Expenses(expenseValues));
    var incomeByType := IncomeByType(report.incomes);
    r := Ok(report.(incomeByType := incomeByType));
  }

  /** The month's income sum over a scan, as a sum over the scanned keys. */
  function KeyIncome(data: map<string, Value>, month: string): string -> int {
    (k: string) =>
      if k in data && data[k].IncomeValue? && InMonth(data[k].income.date, month)
      then IncomeAmount(data[k].income) else 0
  }

  function KeyExpense(data: map<string, Value>, month: string): string -> int {
    (k: string) =>
      if k in data && data[k].ExpenseValue? && InMonth(data[k].expense.date, month)
      then ExpenseAmount(data[k].expense) else 0
  }

  lemma {:induction false} IncomeSumOverKeys(data: map<string, Value>, keys: seq<string>, month: string)
    requires forall i :: 0 <= i < |keys| ==> keys[i] in data
    ensures MonthIncomeSum(Incomes(ValuesAt(data, keys)), month) == SumBy(keys, KeyIncome(data, month))
  {
    if keys != [] {
      IncomeSumOverKeys(data, keys[1..], month);
      assert ValuesAt(data, keys) == [data[keys[0]]] + ValuesAt(data, keys[1..]);
      var rest := Incomes(ValuesAt(data, keys[1..]));
      if data[keys[0]].IncomeValue? {
        assert Incomes(ValuesAt(data, keys)) == [data[keys[0]].income] + rest;
        assert ([data[keys[0]].income] + rest)[1..] == rest;
      } else {
        assert Incomes(ValuesAt(data, keys)) == rest;
      }
    }
  }

  lemma {:induction false} ExpenseSumOverKeys(data: map<string, Value>, keys: seq<string>, month: string)
    requires forall i :: 0 <= i < |keys| ==> keys[i] in data
    ensures MonthExpenseSum(Expenses(ValuesAt(data, keys)), month) == SumBy(keys, KeyExpense(data, month))
  {
    if keys != [] {
      ExpenseSumOverKeys(data, keys[1..], month);
      assert ValuesAt(data, keys) == [data[keys[0]]] + ValuesAt(data, keys[1..]);
      var rest := Expenses(ValuesAt(data, keys[1..]));
      if data[keys[0]].ExpenseValue? {
        assert Expenses(ValuesAt(data, keys)) == [data[keys[0]].expense] + rest;
        assert ([data[keys[0]].expense] + rest)[1..] == rest;
      } else {
        assert Expenses(ValuesAt(data, keys)) == rest;
      }
    }
  }

  /** The totals and the profit do not depend on the order in which the store lists its records. */
  lemma ReportTotalsIndependentOfScanOrder(data: map<string, Value>, month: string,
                                           incomeKeys1: seq<string>, expenseKeys1: seq<string>,
                                           incomeKeys2: seq<string>, expenseKeys2: seq<string>)
    requires IsScan(data, IncomePrefix, incomeKeys1) && IsScan(data, IncomePrefix, incomeKeys2)
    requires IsScan(data, ExpensePrefix, expenseKeys1) && IsScan(data, ExpensePrefix, expenseKeys2)
    ensures ReportOf(data, month, incomeKeys1, expenseKeys1).totalIncome
            == ReportOf(data, month, incomeKeys2, expenseKeys2).totalIncome
    ensures ReportOf(data, month, incomeKeys1, expenseKeys1).totalExpense
            == ReportOf(data, month, incomeKeys2, expenseKeys2).totalExpense
    ensures ReportOf(data, month, incomeKeys1, expenseKeys1).profit
            == ReportOf(data, month, incomeKeys2, expenseKeys2).profit
  {
    ScansArePermutations(data, IncomePrefix, incomeKeys1, incomeKeys2);
    ScansArePermutations(data, ExpensePrefix, expenseKeys1, expenseKeys2);
    IncomeSumOverKeys(data, incomeKeys1, month);
    IncomeSumOverKeys(data, incomeKeys2, month);
    ExpenseSumOverKeys(data, expenseKeys1, month);
    ExpenseSumOverKeys(data, expenseKeys2, month);
    SumByPermutation(incomeKeys1, incomeKeys2, KeyIncome(data, month));
    SumByPermutation(expenseKeys1, expenseKeys2, KeyExpense(data, month));
  }

  // ---------------------------------------------------------------------
  // POST /profit-sharing/calculate (index.tsx:465-499)
  // ---------------------------------------------------------------------

  /**
   * Computes the month's profit sharing from the stored incomes, expenses and
   * partners, and stores it under `profitsharing:<month>`, replacing any
   * earlier calculation; no other key changes.
   */
  method CalculateProfitSharing(kv: KvStore, month: string, now: int)
    returns (ps: ProfitSharing, ghost incomeKeys: seq<string>, ghost expenseKeys: seq<string>,
             ghost partnerKeys: seq<string>)
    requires kv.Valid() && FourDigitYear(now)
    modifies kv
    ensures IsScan(old(kv.data), IncomePrefix, incomeKeys) && IsScan(old(kv.data), ExpensePrefix, expenseKeys)
    ensures IsScan(old(kv.data), PartnerPrefix, partnerKeys)
    ensures ps == ProfitSharingOf(month, Incomes(ValuesAt(old(kv.data), incomeKeys)),
                                  Expenses(ValuesAt(old(kv.data), expenseKeys)),
                                  Partners(ValuesAt(old(kv.data), partnerKeys)), IsoString(now))
    ensures kv.data == old(kv.data)[ProfitSharingPrefix + month := ProfitSharingValue(ps)]
    ensures kv.Valid()
  {
    var incomeValues, expenseValues, partnerValues;
    incomeValues, incomeKeys := kv.GetByPrefix(IncomePrefix);
    expenseValues, expenseKeys := kv.GetByPrefix(ExpensePrefix);
    partnerValues, partnerKeys := kv.GetByPrefix(PartnerPrefix);
    assert incomeValues == ValuesAt(kv.data, incomeKeys);
    assert expenseValues == ValuesAt(kv.data, expenseKeys);
    assert partnerValues == ValuesAt(kv.data, partnerKeys);

    ps := ProfitSharingOf(month, Incomes(incomeValues), Expenses(expenseValues), Partners(partnerValues),
                          IsoString(now));
    ProfitSharingKeyKind(month, ps);
    SetKeepsWellFormed(kv.data, ProfitSharingPrefix + month, ProfitSharingValue(ps));
    kv.Set(ProfitSharingPrefix + month, ProfitSharingValue(ps));
  }

  /** Calculating a month twice leaves one record for it: the later calculation. */
  lemma RecalculationReplaces(data: map<string, Value>, month: string, first: ProfitSharing, second: ProfitSharing)
    ensures data[ProfitSharingPrefix + month := ProfitSharingValue(first)][ProfitSharingPrefix + month := ProfitSharingValue(second)]
            == data[ProfitSharingPrefix + month := ProfitSharingValue(second)]
  {
  }

  // ---------------------------------------------------------------------
  // POST and GET /attendance (index.tsx:339-405)
  // ---------------------------------------------------------------------

  /**
   * A clock-in or clock-out: the employee's record for the UTC day of
   * `timestamp` (or a fresh one) after the event, written back under its key;
   * no other key changes.
   */
  method RecordAttendance(kv: KvStore, employeeId: string, eventType: string, timestamp: int)
    returns (a: Attendance)
    requires kv.Valid() && FourDigitYear(timestamp)
    modifies kv
    ensures var key := AttendanceKey(employeeId, IsoDate(timestamp));
            key in old(kv.data) ==>
              old(kv.data)[key].AttendanceValue? && a == ApplyEvent(old(kv.data)[key].attendance, eventType, timestamp)
    ensures var key := AttendanceKey(employeeId, IsoDate(timestamp));
            key !in old(kv.data) ==> a == ApplyEvent(FreshAttendance(employeeId, IsoDate(timestamp)), eventType, timestamp)
    ensures kv.data == old(kv.data)[AttendanceKey(employeeId, IsoDate(timestamp)) := AttendanceValue(a)]
    ensures kv.Valid()
  {
    var date := IsoDate(timestamp);
    var key := AttendanceKey(employeeId, date);
    assert key == AttendancePrefix + (employeeId + ":" + date);
    var stored := kv.Get(key);
    var attendance;
    if stored.Some? && stored.value.AttendanceValue? {
      attendance := stored.value.attendance;
    } else {
      attendance := FreshAttendance(employeeId, date);
    }
    a := ApplyEvent(attendance, eventType, timestamp);
    AttendanceKeyKind(employeeId + ":" + date, a);
    SetKeepsWellFormed(kv.data, key, AttendanceValue(a));
    kv.Set(key, AttendanceValue(a));
  }

  /** The attendance listing, narrowed by the employee and the month when they are given. */
  method ListAttendances(kv: KvStore, employeeId: Option<string>, month: Option<string>)
    returns (attendances: seq<Attendance>, ghost keys: seq<string>)
    requires kv.Valid()
    ensures IsScan(kv.data, AttendancePrefix, keys)
    ensures attendances == SelectAttendances(Attendances(ValuesAt(kv.data, keys)), employeeId, month)
  {
    var values;
    values, keys := kv.GetByPrefix(AttendancePrefix);
    assert values == ValuesAt(kv.data, keys);
    attendances := Attendances(values);
    if Given(employeeId) {
      attendances := Filter(attendances, OfEmployee(employeeId.value));
    }
    if Given(month) {
      attendances := Filter(attendances, OnMonth(month.value));
    }
  }

  // ---------------------------------------------------------------------
  // Month selection and file names of the exports (index.tsx:617-671, 821-874)
  // ---------------------------------------------------------------------

  /** `month && month !== 'all'`. */
  predicate Selected(month: Option<string>) {
    Given(month) && month.value != "all"
  }

  /** `item && item.date && item.date.startsWith(month)`. */
  predicate DatedIn(date: Option<string>, month: string) {
    date.Some? && date.value != "" && StartsWith(date.value, month)
  }

  function IncomeDatedIn(month: string): Income -> bool {
    (i: Income) => DatedIn(i.date, month)
  }

  function ExpenseDatedIn(month: string): Expense -> bool {
    (e: Expense) => DatedIn(e.date, month)
  }

  function AttendanceDatedIn(month: string): Attendance -> bool {
    (a: Attendance) => DatedIn(Some(a.date), month)
  }

  /** For a month that is not empty, the export's test is the report's month test. */
  lemma DatedInIsInMonth(date: Option<string>, month: string)
    requires month != ""
    ensures DatedIn(date, month) <==> InMonth(date, month)
  {
  }

  /** The exported incomes: all of them, or those of the selected month (the report's selection). */
  function ExportIncomes(incomes: seq<Income>, month: Option<string>): (r: seq<Income>)
    ensures !Selected(month) ==> r == incomes
    ensures Selected(month) ==> r == IncomesOfMonth(incomes, month.value)
  {
    if Selected(month) then
      FilterSame(incomes, IncomeDatedIn(month.value), IncomeInMonth(month.value));
      Filter(incomes, IncomeDatedIn(month.value))
    else incomes
  }

  function ExportExpenses(expenses: seq<Expense>, month: Option<string>): (r: seq<Expense>)
    ensures !Selected(month) ==> r == expenses
    ensures Selected(month) ==> r == ExpensesOfMonth(expenses, month.value)
  {
    if Selected(month) then
      FilterSame(expenses, ExpenseDatedIn(month.value), ExpenseInMonth(month.value));
      Filter(expenses, ExpenseDatedIn(month.value))
    else expenses
  }

  /** The exported attendances: all of them, or those the attendance listing shows for the month. */
  function ExportAttendances(attendances: seq<Attendance>, month: Option<string>): (r: seq<Attendance>)
    ensures !Selected(month) ==> r == attendances
    ensures Selected(month) ==> r == SelectAttendances(attendances, None, month)
  {
    if Selected(month) then
      FilterSame(attendances, AttendanceDatedIn(month.value), OnMonth(month.value));
      Filter(attendances, AttendanceDatedIn(month.value))
    else attendances
  }

  /** `period`: the selected month, or "all". */
  function Period(month: Option<string>): (p: string)
    ensures p != ""
    ensures Selected(month) <==> p != "all"
    ensures Selected(month) ==> p == month.value
  {
    if Selected(month) then month.value else "all"
  }

  /** `monthSuffix`: `_<month>` when a month is selected, nothing otherwise. */
  function MonthSuffix(month: Option<string>): (s: string)
    ensures Selected(month) <==> s != ""
    ensures Selected(month) ==> s == "_" + month.value
  {
    if Selected(month) then "_" + month.value else ""
  }

  /** `now.toISOString().split('T')[0].replace(/-/g, '')`: the UTC date as `YYYYMMDD`. */
  function DateStamp(now: int): (stamp: string)
    requires FourDigitYear(now)
    ensures |stamp| == 8 && forall i :: 0 <= i < 8 ==> IsDigit(stamp[i])
    ensures stamp == IsoString(now)[0..4] + IsoString(now)[5..7] + IsoString(now)[8..10]
  {
    var iso, date := IsoString(now), IsoDate(now);
    forall i | 0 <= i < 10 && i != 4 && i != 7 ensures IsDigit(date[i]) {
      assert date[i] == iso[i] && i !in {4, 7, 10, 13, 16, 19};
    }
    DashesRemoved(date);
    var stamp := date[0..4] + date[5..7] + date[8..10];
    assert date[0..4] == iso[0..4] && date[5..7] == iso[5..7] && date[8..10] == iso[8..10];
    forall i | 0 <= i < 8 ensures IsDigit(stamp[i]) {
      var j := if i < 4 then i else if i < 6 then i + 1 else i + 2;
      assert stamp[i] == date[j];
    }
    RemoveAll(date, '-')
  }

  /** Removing the two dashes of a `YYYY-MM-DD` date leaves its eight digits. */
  lemma DashesRemoved(date: string)
    requires |date| == 10 && date[4] == '-' && date[7] == '-'
    requires forall i :: 0 <= i < 10 && i != 4 && i != 7 ==> IsDigit(date[i])
    ensures RemoveAll(date, '-') == date[0..4] + date[5..7] + date[8..10]
  {
    var year, rest := date[..4], date[5..];
    var month, day := rest[..2], rest[3..];
    assert rest[2] == '-';
    RemoveAllAt(date, 4, '-');
    RemoveAllAt(rest, 2, '-');
    DigitsOnly(year);
    DigitsOnly(month);
    DigitsOnly(day);
    assert year == date[0..4] && month == date[5..7] && day == date[8..10];
  }

  lemma DigitsOnly(s: string)
    requires forall i :: 0 <= i < |s| ==> IsDigit(s[i])
    ensures RemoveAll(s, '-') == s
  {
    assert '-' !in s;
    RemoveAllAbsent(s, '-');
  }

  lemma RemoveAllAt(s: string, i: int, c: char)
    requires 0 <= i < |s| && s[i] == c
    ensures RemoveAll(s, c) == RemoveAll(s[..i], c) + RemoveAll(s[i + 1..], c)
  {
    assert s == s[..i] + s[i..];
    RemoveAllAppend(s[..i], s[i..], c);
    assert s[i..][1..] == s[i + 1..];
  }

  /** The eight digits of the date stamp read back as the UTC year, month and day of `now`. */
  lemma DateStampReadsBack(now: int)
    requires FourDigitYear(now)
    ensures DigitsValue(DateStamp(now)[0..4]) == DateOfInstant(now).year
    ensures DigitsValue(DateStamp(now)[4..6]) == DateOfInstant(now).month
    ensures DigitsValue(DateStamp(now)[6..8]) == DateOfInstant(now).day
  {
    var iso, stamp := IsoString(now), DateStamp(now);
    IsoStringReadsBack(now);
    assert stamp[0..4] == iso[0..4] && stamp[4..6] == iso[5..7] && stamp[6..8] == iso[8..10];
  }

  /**
   * `Data_Peternakan<monthSuffix>_<YYYYMMDD><extension>`: the fixed prefix,
   * `_` and the month when one is selected, then `_` and the eight digits of
   * the UTC date of `now`, then the extension.
   */
  function ExportFilename(month: Option<string>, now: int, extension: string): (name: string)
    requires FourDigitYear(now)
    ensures |name| >= 24 + |extension|
    ensures name[..15] == "Data_Peternakan"
    ensures name[|name| - |extension|..] == extension
    ensures var k := |name| - |extension|;
            name[k - 9] == '_' && forall i :: k - 8 <= i < k ==> IsDigit(name[i])
    ensures var k := |name| - |extension|;
            DigitsValue(name[k - 8..k - 4]) == DateOfInstant(now).year
            && DigitsValue(name[k - 4..k - 2]) == DateOfInstant(now).month
            && DigitsValue(name[k - 2..k]) == DateOfInstant(now).day
    ensures Selected(month) ==> name[15..|name| - |extension| - 9] == "_" + month.value
    ensures !Selected(month) ==> |name| == 24 + |extension|
  {
    var suffix, stamp := MonthSuffix(month), DateStamp(now);
    DateStampReadsBack(now);
    StampedNameParts("Data_Peternakan", suffix, stamp, extension);
    "Data_Peternakan" + suffix + "_" + stamp + extension
  }

  /** Where the parts of `prefix + suffix + "_" + stamp + extension` sit, counted from both ends. */
  lemma StampedNameParts(prefix: string, suffix: string, stamp: string, extension: string)
    requires |stamp| == 8
    ensures var name := prefix + suffix + "_" + stamp + extension;
            var k := |name| - |extension|;
            k == |prefix| + |suffix| + 9
            && name[..|prefix|] == prefix && name[k..] == extension && name[k - 9] == '_'
            && name[k - 8..k - 4] == stamp[0..4] && name[k - 4..k - 2] == stamp[4..6]
            && name[k - 2..k] == stamp[6..8] && name[|prefix|..k - 9] == suffix
            && forall i :: k - 8 <= i < k ==> name[i] == stamp[i - (k - 8)]
  {
    var name := prefix + suffix + "_" + stamp + extension;
    var k := |name| - |extension|;
    assert name[k - 8..k] == stamp;
  }

  datatype ExportSummary = ExportSummary(
    totalIncomes: nat, totalExpenses: nat, totalEmployees: nat,
    totalAttendances: nat, totalPartners: nat, totalLivestockTypes: nat)

  datatype JsonExport = JsonExport(
    exportedAt: string,
    period: string,
    incomes: seq<Income>,
    expenses: seq<Expense>,
    employees: seq<Employee>,
    attendances: seq<Attendance>,
    partners: seq<Partner>,
    livestockTypes: seq<LivestockType>,
    summary: ExportSummary)

  /** The JSON export document: month-dated lists narrowed to the month, and a summary that counts them. */
  function BuildJsonExport(month: Option<string>, now: int, incomes: seq<Income>, expenses: seq<Expense>,
                           employees: seq<Employee>, attendances: seq<Attendance>, partners: seq<Partner>,
                           livestockTypes: seq<LivestockType>): (doc: JsonExport)
    requires FourDigitYear(now)
    ensures doc.exportedAt == IsoString(now) && doc.period == Period(month)
    ensures doc.incomes == ExportIncomes(incomes, month) && doc.expenses == ExportExpenses(expenses, month)
    ensures doc.attendances == ExportAttendances(attendances, month)
    ensures doc.employees == employees && doc.partners == partners && doc.livestockTypes == livestockTypes
    ensures doc.summary == ExportSummary(|doc.incomes|, |doc.expenses|, |doc.employees|,
                                         |doc.attendances|, |doc.partners|, |doc.livestockTypes|)
  {
    var selectedIncomes := ExportIncomes(incomes, month);
    var selectedExpenses := ExportExpenses(expenses, month);
    var selectedAttendances := ExportAttendances(attendances, month);
    JsonExport(IsoString(now), Period(month), selectedIncomes, selectedExpenses, employees,
               selectedAttendances, partners, livestockTypes,
               ExportSummary(|selectedIncomes|, |selectedExpenses|, |employees|,
                             |selectedAttendances|, |partners|, |livestockTypes|))
  }

  /** GET /export/json: the export document and its file name. */
  method ExportJsonRoute(kv: KvStore, month: Option<string>, now: int)
    returns (doc: JsonExport, filename: string,
             ghost incomeKeys: seq<string>, ghost expenseKeys: seq<string>, ghost employeeKeys: seq<string>,
             ghost attendanceKeys: seq<string>, ghost partnerKeys: seq<string>, ghost livestockTypeKeys: seq<string>)
    requires kv.Valid() && FourDigitYear(now)
    ensures IsScan(kv.data, IncomePrefix, incomeKeys) && IsScan(kv.data, ExpensePrefix, expenseKeys)
    ensures IsScan(kv.data, EmployeePrefix, employeeKeys) && IsScan(kv.data, AttendancePrefix, attendanceKeys)
    ensures IsScan(kv.data, PartnerPrefix, partnerKeys) && IsScan(kv.data, LivestockTypePrefix, livestockTypeKeys)
    ensures doc == BuildJsonExport(month, now,
                                   Incomes(ValuesAt(kv.data, incomeKeys)), Expenses(ValuesAt(kv.data, expenseKeys)),
                                   Employees(ValuesAt(kv.data, employeeKeys)),
                                   Attendances(ValuesAt(kv.data, attendanceKeys)),
                                   Partners(ValuesAt(kv.data, partnerKeys)),
                                   LivestockTypes(ValuesAt(kv.data, livestockTypeKeys)))
    ensures filename == ExportFilename(month, now, ".json")
  {
    var incomeValues, expenseValues, employeeValues, attendanceValues, partnerValues, livestockTypeValues;
    incomeValues, incomeKeys := kv.GetByPrefix(IncomePrefix);
    expenseValues, expenseKeys := kv.GetByPrefix(ExpensePrefix);
    employeeValues, employeeKeys := kv.GetByPrefix(EmployeePrefix);
    attendanceValues, attendanceKeys := kv.GetByPrefix(AttendancePrefix);
    partnerValues, partnerKeys := kv.GetByPrefix(PartnerPrefix);
    livestockTypeValues, livestockTypeKeys := kv.GetByPrefix(LivestockTypePrefix);
    assert incomeValues == ValuesAt(kv.data, incomeKeys);
    assert expenseValues == ValuesAt(kv.data, expenseKeys);
    assert employeeValues == ValuesAt(kv.data, employeeKeys);
    assert attendanceValues == ValuesAt(kv.data, attendanceKeys);
    assert partnerValues == ValuesAt(kv.data, partnerKeys);
    assert livestockTypeValues == ValuesAt(kv.data, livestockTypeKeys);

    var incomes := Incomes(incomeValues);
    var expenses := Expenses(expenseValues);
    var attendances := Attendances(attendanceValues);
    if Selected(month) {
      incomes := Filter(incomes, IncomeDatedIn(month.value));
      expenses := Filter(expenses, ExpenseDatedIn(month.value));
      attendances := Filter(attendances, AttendanceDatedIn(month.value));
    }
    var employees, partners, livestockTypes :=
      Employees(employeeValues), Partners(partnerValues), LivestockTypes(livestockTypeValues);
    doc := JsonExport(IsoString(now), Period(month), incomes, expenses, employees, attendances,
                      partners, livestockTypes,
                      ExportSummary(|incomes|, |expenses|, |employees|, |attendances|, |partners|,
                                    |livestockTypes|));
    filename := "Data_Peternakan" + MonthSuffix(month) + "_" + DateStamp(now) + ".json";
  }

  /** GET /export/csv-simple: the two-section CSV body and its file name. */
  method ExportCsvSimpleRoute(kv: KvStore, month: Option<string>, now: int)
    returns (content: string, filename: string, ghost incomeKeys: seq<string>, ghost expenseKeys: seq<string>)
    requires kv.Valid() && FourDigitYear(now)
    ensures IsScan(kv.data, IncomePrefix, incomeKeys) && IsScan(kv.data, ExpensePrefix, expenseKeys)
    ensures content == SimpleExport(ExportIncomes(Incomes(ValuesAt(kv.data, incomeKeys)), month),
                                    ExportExpenses(Expenses(ValuesAt(kv.data, expenseKeys)), month))
    ensures filename == ExportFilename(month, now, ".csv")
  {
    var incomeValues, expenseValues;
    incomeValues, incomeKeys := kv.GetByPrefix(IncomePrefix);
    expenseValues, expenseKeys := kv.GetByPrefix(ExpensePrefix);
    assert incomeValues == ValuesAt(kv.data, incomeKeys);
    assert expenseValues == ValuesAt(kv.data, expenseKeys);

    var incomes := Incomes(incomeValues);
    var expenses := Expenses(expenseValues);
    if Selected(month) {
      incomes := Filter(incomes, IncomeDatedIn(month.value));
      expenses := Filter(expenses, ExpenseDatedIn(month.value));
    }
    content := "=== PEMASUKAN ===\n";
    content := content + ArrayToCsv(IncomeRows(incomes), IncomeHeaders);
    content := content + "\n\n=== PENGELUARAN ===\n";
    content := content + ArrayToCsv(ExpenseRows(expenses), ExpenseHeaders);
    filename := "Data_Peternakan" + MonthSuffix(month) + "_" + DateStamp(now) + ".csv";
  }

  /**
   * Without a selected month the export keeps every income, expense and
   * attendance; with one, exactly the month's records, as often as they are
   * stored.
   */
  lemma ExportKeepsExactlyTheMonth(incomes: seq<Income>, expenses: seq<Expense>, attendances: seq<Attendance>,
                                   month: Option<string>, x: Income, y: Expense, z: Attendance)
    ensures multiset(ExportIncomes(incomes, month))[x] ==
              if !Selected(month) || InMonth(x.date, month.value) then multiset(incomes)[x] else 0
    ensures multiset(ExportExpenses(expenses, month))[y] ==
              if !Selected(month) || InMonth(y.date, month.value) then multiset(expenses)[y] else 0
    ensures multiset(ExportAttendances(attendances, month))[z] ==
              if !Selected(month) || StartsWith(z.date, month.value) then multiset(attendances)[z] else 0
  {
    if Selected(month) {
      IncomesOfMonthExactly(incomes, month.value, x);
      ExpensesOfMonthExactly(expenses, month.value, y);
      SelectAttendancesExactly(attendances, None, month, z);
    }
  }

}
