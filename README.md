# Livestock-farm bookkeeping: a verified model of the computing core

The application keeps the books of a livestock farm. It stores incomes, expenses, employees,
attendances, partners and profit-sharing results in a key-value table under prefixed keys
(`income:`, `expense:`, `attendance:<employee>:<date>`, `profitsharing:<month>`, …). Its server
(index.tsx) answers these requests:

- the monthly report: totals, profit, incomes per livestock type, and expenses per category;
- the profit-sharing calculation, which stores its result under the month's key;
- the attendance clock-in and clock-out, which merges events into one record per employee and
  day, and the attendance listing;
- the JSON and simple-CSV exports, restricted to a month when one is selected.

The pages repeat part of this logic in the browser:

- the month filter and total of the income and expense pages;
- the quantity × unit-price auto-total of their forms;
- an employee's monthly hours and pay;
- the 100 % guard on the partners' percentages;
- the month picker and download names of the export page;
- the current date, month and date-time in Western Indonesian Time (WIB, UTC+7).

This project states that logic in Dafny and proves what it promises. The modules follow the
source files:

| module | file | source |
|---|---|---|
| `Domain` | domain.dfy | the records and the string helpers the others share |
| `Aggregation` | aggregation.dfy | the filter/reduce logic of the report and profit-sharing handlers |
| `Csv` | csv.dfy | `arrayToCSV` and the two-section simple export, with a reader that undoes them |
| `Store` | store.dfy | the key-value table as a class over a `map`; `getByPrefix` as a loop |
| `AttendanceLog` | attendance.dfy | the attendance key and the clock-in/clock-out merge |
| `Server` | server.dfy | the request handlers, as methods on the table |
| `DateUtils` | date_utils.dfy | `toISOString` on an instant in milliseconds, and the three WIB helpers |
| `Sorting` | sorting.dfy | the pages' in-place `.sort`, newest or latest first |
| `FormEntry` | form_entry.dfy | the number inputs and the auto-total |
| `IncomeManagement` | income_management.dfy | the income page |
| `ExpenseManagement` | expense_management.dfy | the expense page |
| `ProfitSharingPage` | profit_sharing_page.dfy | the profit-sharing page |
| `EmployeeAttendance` | employee_attendance.dfy | the attendance page's name lookup and monthly statistics |
| `DataManagement` | data_management.dfy | the export page's month picker, endpoints and file names |

Record fields that JavaScript may leave `undefined` are `Option`s. An `amount || 0` reads `None`
as 0. Amounts are whole Rupiah (`int`). Percentages, hours, rates and shares are `real`. The
current instant, the event timestamps and the request parameters are parameters of the model.

Two behaviours of the pages and the server that the model states explicitly:

- On both entry forms the total is `quantity × unitPrice`: typing a quantity or a unit price
  recomputes it (IncomeManagement.tsx:218-238, ExpenseManagement.tsx:179-199), the total input is
  read-only (IncomeManagement.tsx:252, ExpenseManagement.tsx:213) and its label reads "Otomatis
  dihitung dari Jumlah × Harga Satuan" (IncomeManagement.tsx:254, ExpenseManagement.tsx:215).
  `AmountTracks` holds after the constructor and after every change the user can make.
- The attendance handler recomputes hours only on a clock-out that has a clock-in. A later
  clock-in therefore keeps the hours of the earlier pair, and a clock-out without a clock-in
  keeps the hours the record had. `ApplyEvent` and `LatestClockInWins` state this.

## Model

| member | source | states |
|---|---|---|
| Aggregation.Filter | index.tsx:543-544 | the kept records are at most as many as the input, and each satisfies the test |
| Aggregation.FilterCount | index.tsx:543-544 | a filter keeps each record exactly as often as it occurs when it passes the test, and never otherwise |
| Aggregation.FilterAppend | index.tsx:395-403 | filtering a concatenation is concatenating the filtered parts |
| Aggregation.FilterKeepsAll | index.tsx:395-403 | a filter every record passes keeps the list unchanged |
| Aggregation.FilterSame | index.tsx:637-643 | two tests that agree on every record keep the same records |
| Aggregation.SumByAppend | index.tsx:547-548 | a sum over a concatenation is the sum of the two sums |
| Aggregation.SumByPermutation | index.tsx:547-548 | a sum does not depend on the order of the records |
| Aggregation.RemoveAt | index.tsx:547-548 | taking one record out of a list keeps the rest's multiset and subtracts its term from the sum |
| Aggregation.RealSumByAppend | ProfitSharing.tsx:104 | a real-valued sum over a concatenation is the sum of the two sums |
| Aggregation.SumByFilter | index.tsx:547-548 | summing the kept records equals summing all records with the rejected ones counted as 0 |
| Aggregation.RealSumByFilter | EmployeeAttendance.tsx:126-127 | the same over reals |
| Aggregation.IncomesOfMonthExactly | index.tsx:543 | the month's incomes are exactly the stored incomes whose date starts with the month, each as often as stored; an undated income is never among them |
| Aggregation.ExpensesOfMonthExactly | index.tsx:544 | the same for expenses |
| Aggregation.MonthIncomeTotal | index.tsx:547 | filtering then summing equals summing the month's amounts directly, a missing amount counting 0 |
| Aggregation.MaskedIncomeSum | index.tsx:547 | the month's income total equals the sum over all incomes with the other months masked to 0 |
| Aggregation.MonthExpenseTotal | index.tsx:548 | the same for expenses |
| Aggregation.MaskedExpenseSum | index.tsx:548 | the same for expenses |
| Aggregation.Types | index.tsx:552-558 | the livestock types found among the incomes are non-empty |
| Aggregation.TypesExactly | index.tsx:552-558 | a type is a key exactly when it is non-empty and some income has it |
| Aggregation.TypeTotals | index.tsx:552-558 | the keys of `incomeByType` are exactly the types present, each mapped to the sum of that type's amounts |
| Aggregation.TypeSumAbsent | index.tsx:552-558 | a type that no income has sums to 0 |
| Aggregation.TypesSnoc | index.tsx:553-557 | one more income adds its type to the keys when it has one, and no key otherwise |
| Aggregation.TypeTotalsSnoc | index.tsx:553-557 | one more typed income adds its amount to its type's entry, starting from 0 when the key is new |
| Aggregation.UntypedSnoc | index.tsx:555 | an income without a type leaves `incomeByType` unchanged |
| Aggregation.TypeSumSnoc | index.tsx:556 | one more income adds its amount to exactly the bucket of its type |
| Aggregation.UntypedIncomeInNoBucket | index.tsx:547-558 | an untyped income counts in the income total and in no type bucket |
| Aggregation.IncomeByType | index.tsx:552-558 | the `forEach` that fills the dictionary produces exactly the per-type totals |
| Aggregation.ExpenseByCategory | index.tsx:561-567 | the buckets are exactly the five keys pakan, perawatan, peralatan, gaji and lainnya, each the sum of that category |
| Aggregation.FiveSumsCoverTotal | index.tsx:561-567 | when every expense uses one of the five categories, the five sums add up to the expense total |
| Aggregation.BucketsCoverTotal | index.tsx:548-567 | when every expense uses one of the five categories, the buckets add up to the expense total |
| Aggregation.OtherCategoryOnlyInTotal | index.tsx:548-567 | an expense of any other category changes the total and no bucket |
| Aggregation.BuildReport | index.tsx:543-578 | the report's totals are the month's sums, profit is their difference, its lists are the month's records, and its buckets are the per-type and per-category totals of those lists |
| Aggregation.Shares | index.tsx:480-485 | one share per partner, in partner order, with the partner's id, name and percentage, and amount profit × percentage / 100 exactly when the percentage is present |
| Aggregation.SharesScale | index.tsx:480-485 | the share amounts add up to profit × (total percentage) / 100 |
| Aggregation.SharesSumToProfit | index.tsx:480-485 | when the percentages sum to 100 the shares add up to the profit |
| Aggregation.ProfitSharingOf | index.tsx:472-497 | the stored result is keyed `profitsharing:<month>` and holds the month's totals, the profit and the shares of that profit |
| AttendanceLog.AttendanceKey | index.tsx:350 | the key is `attendance:` followed by `<employeeId>:<date>` |
| AttendanceLog.AttendanceKeyInjective | index.tsx:350 | employee ids without ':' give different keys for different employee-day pairs |
| AttendanceLog.SplitFirstAtSeparator | index.tsx:349 | the text before the first separator is what precedes it when the head holds none |
| AttendanceLog.FreshAttendance | index.tsx:354-363 | a new record has the key as id, the employee and the day, no clocks and 0 hours |
| AttendanceLog.ElapsedHours | index.tsx:371-372 | hours × 3 600 000 is the difference of the timestamps, and the hours are non-negative exactly when the clock-out is not earlier |
| AttendanceLog.ApplyEvent | index.tsx:365-373 | 'in' sets only clockIn; 'out' sets clockOut and recomputes hours only when clockIn is set; any other type changes nothing |
| AttendanceLog.InThenOut | index.tsx:365-373 | a clock-in then a clock-out on a fresh record leaves both clocks and the elapsed hours |
| AttendanceLog.OutWithoutIn | index.tsx:367-373 | a clock-out on a fresh record leaves 0 hours |
| AttendanceLog.LatestClockInWins | index.tsx:365-366 | a second clock-in replaces the first, and a later clock-out measures from it |
| AttendanceLog.LatestClockOutWins | index.tsx:367-373 | a second clock-out replaces the first and re-measures the hours |
| AttendanceLog.SelectAttendancesExactly | index.tsx:395-403 | the listing keeps exactly the records that match each given filter, the employee and the month tested independently |
| AttendanceLog.SelectAllWithoutFilters | index.tsx:395-403 | without an employee and with an empty month, everything is listed |
| Csv.CellText | index.tsx:849-850 | a cell prints as empty exactly when its value is falsy (absent, empty text or the number 0) |
| Csv.DoubleQuotes | index.tsx:852 | doubling the quotes keeps every other character and adds no quote where there was none |
| Csv.EscapeField | index.tsx:851-852 | a field without ',', '"' or line feed is emitted verbatim; any other is wrapped in quotes |
| Csv.UndoubleDoubleQuotes | index.tsx:852 | halving the doubled quotes gives back the original text |
| Csv.UnescapeEscape | index.tsx:851-852 | stripping the quotes and halving the doubled quotes recovers every field |
| Csv.RowTexts | index.tsx:848-850 | one text per header, in header order, each the cell under that header |
| Csv.EscapeAll | index.tsx:848-855 | each text is escaped in place |
| Csv.RowLines | index.tsx:847-856 | one comma-joined line per record, in record order |
| Csv.EmptyDataIsHeaderLine | index.tsx:845 | the early return for empty data writes the header line, as the general case would |
| Csv.ReadQuoted | index.tsx:851-852 | reading a quoted field consumes a prefix of the input |
| Csv.ReadPlain | index.tsx:851-852 | an unquoted field and the rest of the input make up the input |
| Csv.ReadField | index.tsx:851-852 | reading a field consumes a prefix of the input |
| Csv.ReadRecord | index.tsx:848-855 | reading a record gives at least one field and consumes a prefix |
| Csv.ReadPlainExact | index.tsx:851-852 | an unquoted field followed by a separator reads back as itself |
| Csv.ReadQuotedExact | index.tsx:851-852 | a quoted field followed by a separator reads back as its text |
| Csv.ReadFieldEscaped | index.tsx:851-852 | an escaped field followed by a separator reads back as the original text |
| Csv.ReadRecordJoined | index.tsx:855 | a comma-joined line of escaped fields reads back as the fields |
| Csv.Lines | index.tsx:847-856 | the lines are the records' joined escaped fields |
| Csv.ReadDocumentJoined | index.tsx:858 | lines joined by '\n' read back as the records |
| Csv.Table | index.tsx:847-856 | one row of cell texts per record, one text per header |
| Csv.ArrayToCsvReadsBack | index.tsx:844-858 | with headers that need no quoting, the output reads back as the header line followed by each record's cell texts |
| Csv.IncomeRow | index.tsx:864 | every income header is a key of the row |
| Csv.ExpenseRow | index.tsx:868 | every expense header is a key of the row |
| Csv.IncomeRows | index.tsx:864 | one row per income, in order |
| Csv.ExpenseRows | index.tsx:868 | one row per expense, in order |
| Csv.SimpleExportSectionsReadBack | index.tsx:862-869 | both sections of the simple export read back as their header and the records' cell texts |
| DataManagement.DateYear | DataManagement.tsx:27 | the Date constructor reads a year from 0 to 99 as 1900 + year and keeps any other |
| DataManagement.MonthsBack | DataManagement.tsx:27-29 | the year and month i months back, the month in 0..11, rolling the year over |
| DataManagement.GetMonthOptions | DataManagement.tsx:22-42 | 13 entries, the first 'all' / 'Semua Data', entry k the month k − 1 months back |
| DataManagement.FirstIsCurrentMonth | DataManagement.tsx:26-29 | the first month offered is the current one |
| DataManagement.StepsBackOneMonth | DataManagement.tsx:26-29 | each month offered is the month before the previous one, and December of the previous year after January |
| DataManagement.NatToStringValue | DataManagement.tsx:30 | the decimal text of a year reads back as that year |
| DataManagement.FourDigitText | DataManagement.tsx:30 | a year from 1000 to 9999 prints as four digits |
| DataManagement.OptionReadsBack | DataManagement.tsx:30-36 | a value is `YYYY-MM` with the month zero-padded, reading back as its year and month, and the label is that month's Indonesian name and the year |
| DataManagement.OptionValuesDistinct | DataManagement.tsx:26-38 | the twelve month values differ from each other and from 'all' |
| DataManagement.ExportEndpoint | DataManagement.tsx:70-72 | the endpoint has no query exactly for 'all', and `?month=<value>` otherwise |
| DataManagement.QueryMonth | index.tsx:821 | the server sees no month exactly when 'all' is selected |
| DataManagement.ClientFilename | DataManagement.tsx:66-68 | the fallback name the page passes to `apiDownload` starts with `Data_Peternakan` and ends with the extension |
| DataManagement.ButtonDownload | DataManagement.tsx:61-98 | each button asks its own route, with no query exactly when "all" is selected and `?month=<selected>` otherwise; the fallback name passed to `apiDownload` ends with the button's extension and, for any selection the picker offers, is the name the server gives that month's export |
| DataManagement.ClientAgreesWithServer | DataManagement.tsx:67-68 | at the same instant, the page's fallback name is the server's file name, the `_<month>` suffix appearing only when a month is selected |
| DateUtils.YearOfEra | dateUtils.tsx:12 | the year of a 400-year era and the day of that year, in range |
| DateUtils.MonthDay | dateUtils.tsx:12 | a day of a March-based year gives a month in 1..12 and a day in 1..31 |
| DateUtils.CivilFromDays | dateUtils.tsx:12 | the calendar date of a day count has a month in 1..12 and a day in 1..31 |
| DateUtils.FourYearCycle | dateUtils.tsx:12 | inside one four-year cycle the divisions take known values |
| DateUtils.EraDayInRange | dateUtils.tsx:12 | the day within an era lies in its year |
| DateUtils.MonthDayRoundTrip | dateUtils.tsx:12 | the month and day of a day of the year give that day back |
| DateUtils.YearOfEraRoundTrip | dateUtils.tsx:12 | the year of an era and its day give the day of the era back |
| DateUtils.EraYear | dateUtils.tsx:12 | the year of an era and the era give the calendar year |
| DateUtils.CivilRoundTrip | dateUtils.tsx:12 | converting a day count to a calendar date and back is the identity |
| DateUtils.Pad3 | dateUtils.tsx:12 | three digits |
| DateUtils.Pad4 | dateUtils.tsx:12 | four digits |
| DateUtils.DigitsValueAppend | dateUtils.tsx:12 | the value of concatenated digits is the first value shifted plus the second |
| DateUtils.DigitValue | dateUtils.tsx:12 | one digit reads back as its value |
| DateUtils.Pad2Value | dateUtils.tsx:12 | a two-digit field reads back as its number |
| DateUtils.Pad3Value | dateUtils.tsx:12 | a three-digit field reads back as its number |
| DateUtils.Pad4Value | dateUtils.tsx:12 | a four-digit field reads back as its number |
| DateUtils.DateText | dateUtils.tsx:12 | `YYYY-MM-DD`: ten characters with '-' at positions 4 and 7 |
| DateUtils.TimeText | dateUtils.tsx:32 | `HH:mm:ss.sssZ`: thirteen characters, digits apart from the separators |
| DateUtils.DateTextReadsBack | dateUtils.tsx:12 | a date text reads back as its date |
| DateUtils.TimeTextReadsBack | dateUtils.tsx:32 | a time text reads back as its time of day |
| DateUtils.IsoString | dateUtils.tsx:8-33 | `toISOString`: 24 characters `YYYY-MM-DDTHH:mm:ss.sssZ` of the UTC date and time of the instant |
| DateUtils.IsoStringReadsBack | dateUtils.tsx:8-33 | the ISO text reads back as the instant's date and time of day |
| DateUtils.IsoStringDeterminesInstant | dateUtils.tsx:8-33 | different instants give different ISO texts |
| DateUtils.SplitFirst | dateUtils.tsx:12 | `split(sep)[0]` is the prefix before the first separator, holding none |
| DateUtils.RemoveAll | index.tsx:669 | `replace(/-/g, '')` leaves no dash and never lengthens the text |
| DateUtils.RemoveAllAppend | index.tsx:669 | removing from a concatenation removes from both parts |
| DateUtils.RemoveAllAbsent | index.tsx:669 | a text without dashes is unchanged |
| DateUtils.IsoDate | index.tsx:349 | the UTC date of an instant: the first ten characters of its ISO text, reading back as its calendar date |
| DateUtils.CurrentDateWib | dateUtils.tsx:8-13 | `getCurrentDateWIB`: the ten-character date of the instant shifted by 7 × 60 × 60 × 1000 ms |
| DateUtils.FirstSeparator | dateUtils.tsx:12 | splitting at the first 'T' of an ISO text keeps the date |
| DateUtils.CurrentMonthWib | dateUtils.tsx:18-23 | `getCurrentMonthWIB`: seven characters `YYYY-MM` of the shifted instant |
| DateUtils.CurrentDateTimeWib | dateUtils.tsx:28-33 | `getCurrentDateTimeWIB`: sixteen characters `YYYY-MM-DDTHH:mm` of the shifted instant |
| DateUtils.WibPrefixChain | dateUtils.tsx:8-33 | for one instant the month is a prefix of the date, which is a prefix of the date-time |
| DateUtils.CurrentDateIsDateText | dateUtils.tsx:8-13 | the WIB date is the date text of the shifted instant's calendar date |
| DateUtils.WibDateReadsBack | dateUtils.tsx:8-13 | the WIB date reads back as the calendar date of the instant plus seven hours |
| DateUtils.WibMonthReadsBack | dateUtils.tsx:18-23 | the WIB month reads back as that date's year and month |
| DateUtils.WibTimeReadsBack | dateUtils.tsx:28-33 | the WIB date-time's time reads back as the minutes of the day seven hours later |
| DateUtils.HoursAndMinutes | dateUtils.tsx:32 | the hour and minute fields read the minutes of the day |
| DateUtils.WibDateRollsOverAt17Utc | dateUtils.tsx:11-12 | the WIB date is the UTC date, one day later from 17:00 UTC on |
| DateUtils.EpochDays | dateUtils.tsx:12 | the day counts of known dates |
| DateUtils.WibDateExamples | dateUtils.tsx:8-13 | WIB dates of instants just before and after 17:00 UTC |
| DateUtils.EpochDateTexts | dateUtils.tsx:12 | the date texts of known dates |
| Domain.StartsWithConcat | index.tsx:543 | a text starts with any prefix it was built from |
| Domain.StartsWithAt | index.tsx:543 | a text that starts with a prefix agrees with it at each position |
| Domain.DigitChar | DataManagement.tsx:30 | a digit value gives a digit character |
| Domain.NatToString | DataManagement.tsx:30 | `String(n)` is one or more digits |
| Domain.IntToString | DataManagement.tsx:30 | `String(n)` is digits after an optional leading '-' |
| Domain.Pad2 | DataManagement.tsx:30 | `padStart(2, '0')` gives two digits |
| EmployeeAttendance.FindEmployee | EmployeeAttendance.tsx:118 | no employee is found exactly when none has the id; otherwise the found one has it and no earlier one does |
| EmployeeAttendance.FirstMatch | EmployeeAttendance.tsx:118 | the index of the first employee with the id, or the length when there is none |
| EmployeeAttendance.EmployeeName | EmployeeAttendance.tsx:117-120 | the found employee's non-empty name, else 'Unknown' |
| EmployeeAttendance.NameOfFirstMatch | EmployeeAttendance.tsx:117-120 | the name shown for an id is the name of the first employee with that id |
| EmployeeAttendance.EmployeeMonthlyStats | EmployeeAttendance.tsx:122-131 | 0 hours and 0 pay for an unknown id; otherwise the employee's hours and hours × hourly rate |
| EmployeeAttendance.HoursOfIsFilteredSum | EmployeeAttendance.tsx:126-127 | the filtered sum of hours equals the direct sum of the employee's hours |
| EmployeeAttendance.OthersDoNotCount | EmployeeAttendance.tsx:126 | other employees' attendances, before or after, never change an employee's statistics |
| EmployeeAttendance.HoursOfAppend | EmployeeAttendance.tsx:127 | the hours over a concatenation add up |
| EmployeeAttendance.HoursOfNone | EmployeeAttendance.tsx:126-127 | an employee with no attendances has 0 hours |
| EmployeeAttendance.MonthThenEmployee | EmployeeAttendance.tsx:126 | narrowing the month's attendances to an employee keeps the records the server lists for that employee and month |
| ExpenseManagement.ShownExpenses | ExpenseManagement.tsx:112 | the shown expenses are exactly those whose date starts with the selected month, each as often as stored |
| ExpenseManagement.PageTotal | ExpenseManagement.tsx:113 | the total is the month's expense sum, a missing amount counting 0 |
| ExpenseManagement.ChoicesAreReportBuckets | ExpenseManagement.tsx:164-168 | the category choices are exactly the report's bucket keys, and when every shown expense uses one, the buckets add up to the page total |
| ExpenseManagement.PageAgreesWithReport | ExpenseManagement.tsx:112-113 | the page shows the server report's expenses and expense total for the month |
| ExpenseManagement.DisplayOrder | ExpenseManagement.tsx:268 | the shown expenses reordered, newest date first |
| ExpenseManagement.ExpenseForm.constructor | ExpenseManagement.tsx:33-40 | a blank form dated today in WIB |
| ExpenseManagement.ExpenseForm.SelectMonth | ExpenseManagement.tsx:46-50 | choosing a month dates the form `<month>-01` and leaves every other field alone |
| ExpenseManagement.ExpenseForm.SetQuantity | ExpenseManagement.tsx:179-183 | a new quantity recomputes the total from the unit price |
| ExpenseManagement.ExpenseForm.SetUnitPrice | ExpenseManagement.tsx:195-199 | a new unit price recomputes the total from the quantity |
| ExpenseManagement.ExpenseForm.Reset | ExpenseManagement.tsx:74-81 | after saving, a blank form dated today in WIB |
| ExpenseManagement.OpenForm | ExpenseManagement.tsx:31-50 | on opening, the month effect runs after the first render, so the form shows the first of the current WIB month, blank otherwise |
| FormEntry.AutoAmount | IncomeManagement.tsx:221 | the total is entered exactly when both inputs are, and is their product |
| FormEntry.AutoAmountSymmetric | IncomeManagement.tsx:218-238 | the total does not depend on which input was filled last |
| FormEntry.ClearingClearsTotal | IncomeManagement.tsx:221-237 | clearing either input clears the total |
| IncomeManagement.ShownIncomes | IncomeManagement.tsx:144 | the shown incomes are exactly those whose date starts with the selected month, each as often as stored |
| IncomeManagement.PageTotal | IncomeManagement.tsx:145 | the total is the month's income sum, a missing amount counting 0 |
| IncomeManagement.PageAgreesWithReport | IncomeManagement.tsx:144-145 | the page shows the server report's incomes and income total for the month |
| IncomeManagement.DisplayOrder | IncomeManagement.tsx:306-307 | the shown incomes reordered, newest date first |
| IncomeManagement.IncomeForm.constructor | IncomeManagement.tsx:41-48 | a blank form dated today in WIB |
| IncomeManagement.IncomeForm.SelectMonth | IncomeManagement.tsx:68-72 | choosing a month dates the form `<month>-01` and leaves every other field alone |
| IncomeManagement.IncomeForm.SetQuantity | IncomeManagement.tsx:218-222 | a new quantity recomputes the total from the unit price |
| IncomeManagement.IncomeForm.SetUnitPrice | IncomeManagement.tsx:234-238 | a new unit price recomputes the total from the quantity |
| IncomeManagement.IncomeForm.Reset | IncomeManagement.tsx:106-113 | after saving, a blank form dated today in WIB |
| IncomeManagement.OpenForm | IncomeManagement.tsx:39-72 | on opening, the month effect runs after the first render, so the form shows the first of the current WIB month, blank otherwise |
| ProfitSharingPage.PercentageTotalAppend | ProfitSharing.tsx:104 | each partner adds its percentage once, a missing one counting 0 |
| ProfitSharingPage.GuardsAgree | ProfitSharing.tsx:204-243 | the button is disabled exactly when there are no partners or the total is not 100; with partners it is disabled exactly when the table warning shows; the hint shows also without partners |
| ProfitSharingPage.EnabledCalculationSplitsProfit | ProfitSharing.tsx:234 | a calculation the button allows splits the whole profit when every partner has a percentage |
| ProfitSharingPage.SortHistory | ProfitSharing.tsx:261 | the history reordered in place, latest month first |
| Server.ReportOf | index.tsx:540-578 | the report over what the scans found, with the month's totals |
| Server.MonthlyReportRoute | index.tsx:533-578 | without a month: 400 'Month parameter is required'; otherwise the report over the stored incomes and expenses |
| Server.IncomeSumOverKeys | index.tsx:540-547 | the income total over a scan is a sum over its keys |
| Server.ExpenseSumOverKeys | index.tsx:541-548 | the expense total over a scan is a sum over its keys |
| Server.ReportTotalsIndependentOfScanOrder | index.tsx:540-549 | any two scans of the same table give the same totals and profit |
| Server.CalculateProfitSharing | index.tsx:465-499 | the result over the stored records is written under `profitsharing:<month>` and no other key changes |
| Server.RecalculationReplaces | index.tsx:499 | a second calculation for the month replaces the first |
| Server.RecordAttendance | index.tsx:339-382 | the event merges into the record of that employee and UTC day, and only that key is written |
| Server.ListAttendances | index.tsx:392-405 | the listing is the stored attendances narrowed by each given filter |
| Server.DatedInIsInMonth | index.tsx:637-643 | the export's date test is the report's month test |
| Server.ExportIncomes | index.tsx:637-643 | all incomes without a selected month, else the month's incomes |
| Server.ExportExpenses | index.tsx:637-643 | all expenses without a selected month, else the month's expenses |
| Server.ExportAttendances | index.tsx:637-643 | all attendances without a selected month, else the month's |
| Server.Period | index.tsx:647 | the selected month, or 'all' exactly when none is selected |
| Server.MonthSuffix | index.tsx:670 | `_<month>` exactly when a month is selected, else empty |
| Server.DateStamp | index.tsx:669 | eight digits, the ISO date without its dashes |
| Server.DateStampReadsBack | index.tsx:669 | the eight digits read back as the UTC year, month and day of the instant |
| Server.DashesRemoved | index.tsx:669 | removing the dashes of a date leaves year, month and day |
| Server.DigitsOnly | index.tsx:669 | the date has digits everywhere except its dashes |
| Server.RemoveAllAt | index.tsx:669 | removing dashes around a single dash joins the two parts |
| Server.ExportFilename | index.tsx:669-671 | the name starts `Data_Peternakan`, ends with the extension, carries `_<month>` after the prefix exactly when a month is selected, and its eight digits before the extension read back as the UTC year, month and day of the instant |
| Server.BuildJsonExport | index.tsx:645-664 | the document's lists are the (filtered) records and its summary counts are their lengths |
| Server.ExportJsonRoute | index.tsx:617-671 | the document over six scans of the table, and its file name |
| Server.ExportCsvSimpleRoute | index.tsx:821-874 | the two-section CSV of the (filtered) incomes and expenses, and its file name |
| Server.ExportKeepsExactlyTheMonth | index.tsx:637-643 | an export keeps every income, expense and attendance without a selected month, and exactly the month's records, as often as stored, with one |
| Sorting.LexLeTotal | ProfitSharing.tsx:261 | any two keys are ordered one way or the other |
| Sorting.LexLeTransitive | ProfitSharing.tsx:261 | the order is transitive |
| Sorting.LexLeAntisymmetric | ProfitSharing.tsx:261 | keys ordered both ways are equal |
| Sorting.SortDescending | IncomeManagement.tsx:307 | the array ends up with descending keys and the same elements |
| Sorting.Insert | IncomeManagement.tsx:307 | one more element is moved into the descending prefix, keeping the elements |
| Sorting.SwapKeepsState | IncomeManagement.tsx:307 | a swap moves the inserted element one place left and keeps the insertion state |
| Sorting.InsertionDone | IncomeManagement.tsx:307 | when the element stops, the prefix descends |
| Store.SetKeepsWellFormed | index.tsx:376 | writing a value of the kind its key prefix names keeps the table well formed |
| Store.ProfitSharingKeyKind | index.tsx:488 | a `profitsharing:` key holds only profit-sharing results |
| Store.AttendanceKeyKind | index.tsx:350 | an `attendance:` key holds only attendances |
| Store.ScansArePermutations | index.tsx:540-541 | two scans of one prefix visit the same keys, possibly in another order |
| Store.DistinctCount | index.tsx:540-541 | a key occurs once in a scan |
| Store.ValuesAt | index.tsx:540-541 | the values at the scanned keys, in order |
| Store.Incomes | index.tsx:540 | the incomes among the values, all of them when every value is one |
| Store.Expenses | index.tsx:541 | the expenses among the values, all of them when every value is one |
| Store.Employees | index.tsx:625 | the employees among the values, all of them when every value is one |
| Store.Attendances | index.tsx:395 | the attendances among the values, all of them when every value is one |
| Store.Partners | index.tsx:470 | the partners among the values, all of them when every value is one |
| Store.LivestockTypes | index.tsx:628 | the livestock types among the values, all of them when every value is one |
| Store.ScanKinds | index.tsx:540-541 | in a well-formed table a prefix scan finds values of that prefix's kind only |
| Store.KvStore.constructor | index.tsx:352 | an empty table is well formed |
| Store.KvStore.Get | index.tsx:352 | the value under a key, or none when the key is absent |
| Store.KvStore.Set | index.tsx:376 | the table with that key overwritten and nothing else changed |
| Store.KvStore.GetByPrefix | index.tsx:540 | every value whose key starts with the prefix, each key once, in some order |

## Left out

- HTTP plumbing: routing, CORS, logging and `Deno.serve` are not modelled, and neither are the
  JSON bodies of the responses. Each handler returns its computed value or a `Fail` status.
- Authentication and sign-up go through the hosted identity provider, a foreign call. So do the
  login page and the session handling of the client.
- kv_store.tsx is not part of this model. The table is a `map`, and the order of
  `getByPrefix` is left open: handlers return, as ghost values, the keys a scan visited.
- Ids and `createdAt` stamps are made from `Date.now()` and `Math.random()`. They are not
  modelled: ids are fields of the records, and the only stamps modelled are the
  profit-sharing's `calculatedAt` and the export's `exportedAt`, taken from the `now` parameter.
- Server.ExportJsonRoute: one `now` stamps both `exportedAt` (index.tsx:646) and the date in the
  file name (index.tsx:668-669). The source reads `new Date()` twice, with `JSON.stringify` in
  between, so the two come from different instants and may name different days across a UTC
  midnight.
- `parseFloat` and IEEE-754 rounding are not modelled. Sums are exact `int` and `real`, the
  `/ 100` share is exact, and the auto-total's `.toString()` is an exact product.
- `new Date(timestamp)` is not modelled: a timestamp is its millisecond instant. The attendance
  day is derived from it by the modelled `toISOString`, for years 0 to 9999 only (`FourDigitYear`).
  Extended six-digit years are left out.
- The read-modify-write race between concurrent attendance events is not modelled: each handler
  runs alone.
- The Excel export (XLSX), the ZIP export (JSZip) and the client's file download are foreign
  libraries or I/O. The CSV text they share is modelled through `arrayToCSV`.
- Locale and `Intl` formatting (`formatDateWIB`, `formatCurrency` and the rest of dateUtils.tsx)
  depends on the runtime's locale data.
- The dashboard, reports, settings and livestock-type pages are presentation only. So are the
  React hooks, toasts, dialogs and window events.
- Csv.ArrayToCsv: carries no contract of its own. Its properties are stated by
  `EmptyDataIsHeaderLine` and `ArrayToCsvReadsBack`. A cell is absent, text or an integer
  number. Other JSON values (booleans, nested objects) are not modelled, and numbers are
  integers only.
- Csv.SimpleExport: carries no contract of its own. Its sections are stated by
  `SimpleExportSectionsReadBack`.
- Aggregation.PercentageTotal: carries no contract of its own. Its additivity and its relation
  to the shares are stated by `PercentageTotalAppend`, `SharesScale` and `GuardsAgree`.
- ProfitSharingPage.EnabledCalculationSplitsProfit: requires every partner to have a percentage.
  The page counts a missing percentage as 0, but the server's `profit * undefined / 100` is NaN,
  modelled as a share with no amount.
- Server.CalculateProfitSharing: the request body's month is taken as a string. A body without a
  month, which would key the result `profitsharing:undefined`, is not modelled.
- EmployeeAttendance.HoursOf: an attendance's hours are a number (`real`). The server always
  stores a number (0, or the elapsed hours), so `a.hours || 0` reads the same value. NaN hours
  from an unparseable date are not modelled.
- Sorting.SortDescending: it is an insertion sort. It states the order the comparator gives and
  that no element is lost, but not the tie order of the engine's sort. Dates and months compare
  as strings. For `YYYY-MM-DD` and `YYYY-MM` texts this agrees with the date difference and
  `localeCompare` of the source. Texts of other shapes, or missing dates (which `new Date`
  turns into NaN), may sort differently in the source.
- DataManagement.GetMonthOptions: the browser's local year and month are parameters. The
  Date constructor's reading of years 0 to 99 is modelled (`DateYear`). Local time-zone
  transitions are not modelled.
- DataManagement.ClientAgreesWithServer: assumes that the page and the server read the same
  instant. In the source they are two clocks, and a download just after midnight UTC may carry
  different dates. It also assumes a non-empty selection, which is all the picker offers.
- Aggregation.IncomeByType: the dictionary is modelled as a `map` from type names to sums. The
  source fills a plain `{}` object, so a type named `constructor`, `toString`, `valueOf`,
  `hasOwnProperty` or any other inherited member starts from that function instead of
  `undefined`, and its "sum" becomes text; an assignment to `__proto__` is ignored. Those
  names are not modelled.
- The `onChange` handler of the forms' total input (IncomeManagement.tsx:250,
  ExpenseManagement.tsx:211) is not modelled: the input is read-only, so typing cannot reach it.
- The client's `apiDownload` (supabase-client.tsx:72-80) is not modelled. The fallback name
  (`ClientFilename`) is used only when the response has no `Content-Disposition`, and the export
  routes always send and expose that header (index.tsx:19, 678-680, 881-883). The page instead
  takes the match of `/filename="?(.+)"?/` on it. The greedy `(.+)` keeps the closing quote, so
  the name handed to the browser is the server's name followed by a stray `"`.
- ProfitSharingPage.CalculateDisabled: carries no contract of its own. The guard at
  ProfitSharing.tsx:234 is stated by `GuardsAgree` and `EnabledCalculationSplitsProfit`.
- ProfitSharingPage.ShowsTableWarning: carries no contract of its own. The condition at
  ProfitSharing.tsx:204 is stated by `GuardsAgree`.
- ProfitSharingPage.ShowsCalculateHint: carries no contract of its own. The condition at
  ProfitSharing.tsx:239 is stated by `GuardsAgree`.
- AttendanceLog.SelectAttendances: carries no contract of its own. The filters of
  index.tsx:395-403 are stated by `SelectAttendancesExactly` and `SelectAllWithoutFilters`.
- DataManagement.OptionAt: carries no contract of its own. The option built at
  DataManagement.tsx:27-36 is stated by `OptionReadsBack` and `OptionValuesDistinct`.
- Server.Selected: carries no contract of its own. The test `month && month !== 'all'` is stated
  through `Period`, `MonthSuffix`, `ExportFilename` and `ExportKeepsExactlyTheMonth`.
- Server.DatedIn: carries no contract of its own. The test `item && item.date &&
  item.date.startsWith(month)` of index.tsx:637-641 is stated by `DatedInIsInMonth`.
