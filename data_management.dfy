/**
 * The data-management page (DataManagement.tsx): the month picker of the
 * export card, and the endpoint and file name each export button asks for.
 * The picker's "now" is the browser's local year and month (`getFullYear`,
 * `getMonth`, the month counted from 0), given as parameters.
 */
module DataManagement {
  import opened Domain
  import opened DateUtils
  import opened Server

  const MonthNames: seq<string> := [
    "Januari", "Februari", "Maret", "April", "Mei", "Juni",
    "Juli", "Agustus", "September", "Oktober", "November", "Desember"
  ]

  datatype MonthOption = MonthOption(value: string, caption: string)

  const AllOption := MonthOption("all", "Semua Data")

  /** The year `new Date(year, ...)` uses: a year from 0 to 99 is read as 1900 + year. */
  function DateYear(year: int): (y: int)
    ensures 0 <= year <= 99 ==> y == 1900 + year
    ensures !(0 <= year <= 99) ==> y == year
  {
    if 0 <= year <= 99 then 1900 + year else year
  }

  /**
   * `new Date(year, month0 - i, 1)`: the year and the month (from 0) that lie
   * `i` months before `month0` of `year`, a month outside 0..11 rolling the
   * year over.
   */
  function MonthsBack(year: int, month0: int, i: int): (r: (int, int))
    ensures 0 <= r.1 < 12
    ensures r.0 * 12 + r.1 == DateYear(year) * 12 + month0 - i
  {
    var total := DateYear(year) * 12 + month0 - i;
    (total / 12, total % 12)
  }

  /** The option for `i` months back: value `YYYY-MM`, label the Indonesian month name and the year. */
  function OptionAt(year: int, month0: int, i: int): (o: MonthOption)
  {
    var (yy, mm) := MonthsBack(year, month0, i);
    MonthOption(IntToString(yy) + "-" + Pad2(mm + 1), MonthNames[mm] + " " + IntToString(yy))
  }

  /** `getMonthOptions`: "all" first, then the current month and the eleven before it, latest first. */
  method GetMonthOptions(year: int, month0: int) returns (options: seq<MonthOption>)
    ensures |options| == 13 && options[0] == AllOption
    ensures forall k :: 1 <= k < |options| ==> options[k] == OptionAt(year, month0, k - 1)
  {
    options := [AllOption];
    var i := 0;
    while i < 12
      invariant 0 <= i <= 12 && |options| == i + 1 && options[0] == AllOption
      invariant forall k :: 1 <= k < |options| ==> options[k] == OptionAt(year, month0, k - 1)
    {
      var (yy, mm) := MonthsBack(year, month0, i);
      var value := IntToString(yy) + "-" + Pad2(mm + 1);
      var caption := MonthNames[mm] + " " + IntToString(yy);
      options := options + [MonthOption(value, caption)];
      i := i + 1;
    }
  }

  /** A quotient and remainder by 12 are unique. */
  lemma DivModUnique(t: int, q: int, r: int)
    requires 0 <= r < 12 && t == q * 12 + r
    ensures t / 12 == q && t % 12 == r
  {
  }

  /** The first month offered is the current one (for a year the Date constructor takes as is). */
  lemma FirstIsCurrentMonth(year: int, month0: int)
    requires 0 <= month0 < 12 && !(0 <= year <= 99)
    ensures MonthsBack(year, month0, 0) == (year, month0)
  {
    DivModUnique(year * 12 + month0, year, month0);
  }

  /** Each option is the month before the previous one; going back from January gives December of the year before. */
  lemma {:induction false} StepsBackOneMonth(year: int, month0: int, i: int)
    ensures var (yy, mm) := MonthsBack(year, month0, i);
            MonthsBack(year, month0, i + 1) == if mm > 0 then (yy, mm - 1) else (yy - 1, 11)
  {
    var (yy, mm) := MonthsBack(year, month0, i);
    var t := DateYear(year) * 12 + month0 - (i + 1);
    if mm > 0 {
      DivModUnique(t, yy, mm - 1);
    } else {
      DivModUnique(t, yy - 1, 11);
    }
  }

  /** The decimal text of a natural number reads back as that number. */
  lemma {:induction false} NatToStringValue(n: nat)
    ensures DigitsValue(NatToString(n)) == n
    decreases n
  {
    if n < 10 {
      DigitValue(DigitChar(n));
    } else {
      NatToStringValue(n / 10);
      var s := NatToString(n);
      assert s[..|s| - 1] == NatToString(n / 10);
    }
  }

  lemma FourDigitText(n: nat)
    requires 1000 <= n <= 9999
    ensures |NatToString(n)| == 4
  {
    assert |NatToString(n / 1000)| == 1;
    assert |NatToString(n / 100)| == 2;
    assert |NatToString(n / 10)| == 3;
  }

  /** The year and month (from 1) written in a `YYYY-MM` value. */
  function ReadMonthValue(value: string): (int, int)
    requires |value| == 7
  {
    (DigitsValue(value[..4]), DigitsValue(value[5..7]))
  }

  /**
   * For a four-digit year, an option's value is `YYYY-MM` and reads back as
   * its year and month, and its label names that month and year.
   */
  lemma OptionReadsBack(year: int, month0: int, i: int)
    requires 1000 <= MonthsBack(year, month0, i).0 <= 9999
    ensures var o := OptionAt(year, month0, i);
            |o.value| == 7 && o.value[4] == '-'
            && ReadMonthValue(o.value) == (MonthsBack(year, month0, i).0, MonthsBack(year, month0, i).1 + 1)
            && o.caption == MonthNames[ReadMonthValue(o.value).1 - 1] + " " + o.value[..4]
  {
    var (yy, mm) := MonthsBack(year, month0, i);
    var o := OptionAt(year, month0, i);
    FourDigitText(yy);
    NatToStringValue(yy);
    Pad2Value(mm + 1);
    assert o.value[..4] == NatToString(yy);
    assert o.value[5..7] == Pad2(mm + 1);
  }

  /** The twelve month options are different months, so the picker offers no value twice. */
  lemma OptionValuesDistinct(year: int, month0: int, i: int, j: int)
    requires 0 <= i < j < 12
    requires 1000 <= MonthsBack(year, month0, j).0 && MonthsBack(year, month0, i).0 <= 9999
    ensures OptionAt(year, month0, i).value != OptionAt(year, month0, j).value
    ensures OptionAt(year, month0, i).value != AllOption.value
  {
    var (yi, mi) := MonthsBack(year, month0, i);
    var (yj, mj) := MonthsBack(year, month0, j);
    assert yj <= yi;
    OptionReadsBack(year, month0, i);
    OptionReadsBack(year, month0, j);
  }

  // ---------------------------------------------------------------------
  // The export buttons (DataManagement.tsx:61-72, 87-98)
  // ---------------------------------------------------------------------

  /** `selectedMonth === 'all' ? base : `${base}?month=${selectedMonth}``. */
  function ExportEndpoint(base: string, selected: string): (endpoint: string)
    ensures StartsWith(endpoint, base)
    ensures selected == "all" <==> endpoint == base
    ensures selected != "all" ==> endpoint[|base|..] == "?month=" + selected
  {
    StartsWithConcat(base, "?month=" + selected);
    if selected == "all" then base else base + "?month=" + selected
  }

  /** The `month` query parameter the server reads from that endpoint. */
  function QueryMonth(selected: string): (month: Option<string>)
    ensures month.None? <==> selected == "all"
  {
    if selected == "all" then None else Some(selected)
  }

  /**
   * The fallback name the page passes to `apiDownload` (DataManagement.tsx:66-68);
   * `apiDownload` uses it only when the response has no `Content-Disposition`.
   */
  function ClientFilename(selected: string, now: int, extension: string): (name: string)
    requires FourDigitYear(now)
    ensures StartsWith(name, "Data_Peternakan")
    ensures |name| >= |extension| && name[|name| - |extension|..] == extension
  {
    var suffix := if selected != "all" then "_" + selected else "";
    StampedNameParts("Data_Peternakan", suffix, DateStamp(now), extension);
    "Data_Peternakan" + suffix + "_" + DateStamp(now) + extension
  }

  datatype Download = Download(endpoint: string, filename: string)

  /** The two export buttons that take the selected month. */
  datatype ExportButton = CsvButton | JsonButton

  /** The server route each button asks. */
  function ButtonRoute(button: ExportButton): string
  {
    match button
    case CsvButton => "/export/csv-simple"
    case JsonButton => "/export/json"
  }

  /** The extension of each button's fallback name. */
  function ButtonExtension(button: ExportButton): string
  {
    match button
    case CsvButton => ".csv"
    case JsonButton => ".json"
  }

  /**
   * `handleExportCSV` and `handleExportJSON`: each button asks its own route,
   * with no query exactly when "all" is selected and `?month=<selected>`
   * otherwise, and passes `apiDownload` a fallback name with its own
   * extension, the name the server gives that month's export.
   */
  function ButtonDownload(button: ExportButton, selected: string, now: int): (d: Download)
    requires FourDigitYear(now)
    ensures StartsWith(d.endpoint, ButtonRoute(button))
    ensures d.endpoint == ButtonRoute(button) <==> selected == "all"
    ensures selected != "all" ==> d.endpoint[|ButtonRoute(button)|..] == "?month=" + selected
    ensures var ext := ButtonExtension(button);
            |d.filename| >= |ext| && d.filename[|d.filename| - |ext|..] == ext
    ensures selected != "" ==> d.filename == ExportFilename(QueryMonth(selected), now, ButtonExtension(button))
  {
    var route, ext := ButtonRoute(button), ButtonExtension(button);
    var d := Download(ExportEndpoint(route, selected), ClientFilename(selected, now, ext));
    if selected != "" then ClientAgreesWithServer(selected, now, ext); d else d
  }

  /**
   * At the same instant, the page's fallback name is the name the server
   * gives the export, and the server exports all records exactly when "all" is
   * selected (an empty selection, which the picker never offers, would not
   * agree).
   */
  lemma ClientAgreesWithServer(selected: string, now: int, extension: string)
    requires FourDigitYear(now) && selected != ""
    ensures ClientFilename(selected, now, extension) == ExportFilename(QueryMonth(selected), now, extension)
    ensures Selected(QueryMonth(selected)) <==> selected != "all"
  {
  }
}
