/**
 * The `arrayToCSV` helper of the CSV export handlers (index.tsx:844-859,
 * repeated at 911-927), and a reader for what it writes.
 *
 * A field is quoted when it contains a comma, a double quote or a line feed,
 * and inner double quotes are doubled (rules 6 and 7 of section 2 of
 * RFC 4180). A carriage return alone does not cause quoting. Records are
 * separated by a bare line feed, and the header line is written unescaped.
 */
module Csv {
  import opened Domain

  /** A value found under a header in a record, before `|| ''` and `String(...)`. */
  datatype Cell = Absent | Text(s: string) | Number(n: int)

  /** A record as the serialiser sees it: property name to value; a missing property is `undefined`. */
  type Row = map<string, Cell>

  /** JavaScript falsiness of a cell: `undefined`, `null`, NaN, `''` and `0`. */
  predicate Falsy(c: Cell) {
    c.Absent? || c == Text("") || c == Number(0)
  }

  /** `String(value || '')`. */
  function CellText(c: Cell): (r: string)
    ensures r == "" <==> Falsy(c)
    ensures c.Text? && !Falsy(c) ==> r == c.s
  {
    match c
    case Absent => ""
    case Text(s) => s
    case Number(n) => if n == 0 then "" else IntToString(n)
  }

  /** `item[header]`: a property the record lacks reads as `undefined`. */
  function Lookup(row: Row, header: string): Cell {
    if header in row then row[header] else Absent
  }

  /** The test that decides quoting: a comma, a double quote or a line feed. */
  predicate NeedsQuoting(s: string) {
    ',' in s || '"' in s || '\n' in s
  }

  /** `s.replace(/"/g, '""')`. */
  function DoubleQuotes(s: string): (r: string)
    ensures |r| >= |s|
    ensures ('"' in s) == ('"' in r)
    ensures forall c :: c != '"' ==> (c in s <==> c in r)
  {
    if s == [] then ""
    else (if s[0] == '"' then "\"\"" else [s[0]]) + DoubleQuotes(s[1..])
  }

  /** One field as the serialiser writes it. */
  function EscapeField(s: string): (r: string)
    ensures !NeedsQuoting(s) ==> r == s
    ensures NeedsQuoting(s) ==> |r| >= 2 && r[0] == '"' && r[|r| - 1] == '"'
  {
    if NeedsQuoting(s) then "\"" + DoubleQuotes(s) + "\"" else s
  }

  /** Halves every doubled double quote: the inverse of `DoubleQuotes`. */
  function Undouble(s: string): string {
    if |s| >= 2 && s[0] == '"' && s[1] == '"' then "\"" + Undouble(s[2..])
    else if s == [] then ""
    else [s[0]] + Undouble(s[1..])
  }

  /** Strips the surrounding quotes of a quoted field and halves its doubled quotes. */
  function Unescape(f: string): string {
    if |f| >= 2 && f[0] == '"' && f[|f| - 1] == '"' then Undouble(f[1..|f| - 1]) else f
  }

  lemma {:induction false} UndoubleDoubleQuotes(s: string)
    ensures Undouble(DoubleQuotes(s)) == s
  {
    if s != [] {
      UndoubleDoubleQuotes(s[1..]);
      var head := if s[0] == '"' then "\"\"" else [s[0]];
      assert DoubleQuotes(s) == head + DoubleQuotes(s[1..]);
      if s[0] == '"' {
        assert (head + DoubleQuotes(s[1..]))[2..] == DoubleQuotes(s[1..]);
      } else {
        assert (head + DoubleQuotes(s[1..]))[1..] == DoubleQuotes(s[1..]);
      }
      assert s == [s[0]] + s[1..];
    }
  }

  /** Stripping the quotes and halving the doubled quotes recovers the original text. */
  lemma UnescapeEscape(s: string)
    ensures Unescape(EscapeField(s)) == s
  {
    if NeedsQuoting(s) {
      var f := EscapeField(s);
      assert f[1..|f| - 1] == DoubleQuotes(s);
      UndoubleDoubleQuotes(s);
    } else if s != [] {
      assert s[0] in s;
    }
  }

  /** `parts.join(sep)`. */
  function Join(parts: seq<string>, sep: char): string {
    if parts == [] then ""
    else if |parts| == 1 then parts[0]
    else parts[0] + [sep] + Join(parts[1..], sep)
  }

  /** The texts of a record's cells, one per header, in header order. */
  function RowTexts(row: Row, headers: seq<string>): (texts: seq<string>)
    ensures |texts| == |headers|
    ensures forall k :: 0 <= k < |headers| ==> texts[k] == CellText(Lookup(row, headers[k]))
  {
    if headers == [] then []
    else [CellText(Lookup(row, headers[0]))] + RowTexts(row, headers[1..])
  }

  function EscapeAll(fields: seq<string>): (r: seq<string>)
    ensures |r| == |fields|
    ensures forall k :: 0 <= k < |fields| ==> r[k] == EscapeField(fields[k])
  {
    if fields == [] then [] else [EscapeField(fields[0])] + EscapeAll(fields[1..])
  }

  /** One comma-joined line per record. */
  function RowLines(data: seq<Row>, headers: seq<string>): (lines: seq<string>)
    ensures |lines| == |data|
    ensures forall k :: 0 <= k < |data| ==> lines[k] == Join(EscapeAll(RowTexts(data[k], headers)), ',')
  {
    if data == [] then []
    else [Join(EscapeAll(RowTexts(data[0], headers)), ',')] + RowLines(data[1..], headers)
  }

  /** `arrayToCSV(data, headers)`. */
  function ArrayToCsv(data: seq<Row>, headers: seq<string>): string {
    if |data| == 0 then Join(headers, ',')
    else Join([Join(headers, ',')] + RowLines(data, headers), '\n')
  }

  /** The early return for empty data writes what the general case would write with no rows. */
  lemma EmptyDataIsHeaderLine(headers: seq<string>)
    ensures ArrayToCsv([], headers) == Join([Join(headers, ',')] + RowLines([], headers), '\n')
  {
    assert [Join(headers, ',')] + RowLines([], headers) == [Join(headers, ',')];
  }

  // ---------------------------------------------------------------------
  // Reading the output back
  // ---------------------------------------------------------------------

  /** Reads the body of a quoted field, after its opening quote, up to and past the closing quote. */
  function ReadQuoted(s: string): (r: Option<(string, string)>)
    ensures r.Some? ==> |r.value.1| < |s|
  {
    if s == [] then None
    else if s[0] == '"' then
      if |s| >= 2 && s[1] == '"' then
        match ReadQuoted(s[2..])
        case None => None
        case Some(p) => Some(("\"" + p.0, p.1))
      else Some(("", s[1..]))
    else
      match ReadQuoted(s[1..])
      case None => None
      case Some(p) => Some(([s[0]] + p.0, p.1))
  }

  /** Reads an unquoted field: everything up to the next comma or line feed. */
  function ReadPlain(s: string): (r: (string, string))
    ensures |r.1| <= |s|
    ensures r.0 + r.1 == s
  {
    if s == [] || s[0] == ',' || s[0] == '\n' then ("", s)
    else
      var p := ReadPlain(s[1..]);
      assert [s[0]] + p.0 + p.1 == [s[0]] + (p.0 + p.1);
      ([s[0]] + p.0, p.1)
  }

  function ReadField(s: string): (r: Option<(string, string)>)
    ensures r.Some? ==> |r.value.1| <= |s|
  {
    if s != [] && s[0] == '"' then ReadQuoted(s[1..]) else Some(ReadPlain(s))
  }

  /** Reads comma-separated fields up to the end of a line (the line feed is left in the rest). */
  function ReadRecord(s: string): (r: Option<(seq<string>, string)>)
    ensures r.Some? ==> |r.value.1| <= |s|
    decreases |s|
  {
    match ReadField(s)
    case None => None
    case Some(p) =>
      var (field, rest) := p;
      if rest != [] && rest[0] == ',' then
        match ReadRecord(rest[1..])
        case None => None
        case Some(q) => Some(([field] + q.0, q.1))
      else if rest == [] || rest[0] == '\n' then Some(([field], rest))
      else None
  }

  /** Reads a whole document: records separated by line feeds. */
  function ReadDocument(s: string): Option<seq<seq<string>>>
    decreases |s|
  {
    match ReadRecord(s)
    case None => None
    case Some(p) =>
      var (record, rest) := p;
      if rest == [] then Some([record])
      else if rest[0] == '\n' then
        match ReadDocument(rest[1..])
        case None => None
        case Some(records) => Some([record] + records)
      else None
  }

  /** What may follow a field: nothing, the next field or the next record. */
  predicate FieldEnd(t: string) {
    t == [] || t[0] == ',' || t[0] == '\n'
  }

  lemma {:induction false} ReadPlainExact(f: string, t: string)
    requires !NeedsQuoting(f) && FieldEnd(t)
    ensures ReadPlain(f + t) == (f, t)
  {
    if f == [] {
      assert f + t == t;
    } else {
      assert (f + t)[1..] == f[1..] + t;
      assert f[0] in f;
      assert forall c :: c in f[1..] ==> c in f;
      ReadPlainExact(f[1..], t);
      assert [f[0]] + f[1..] == f;
    }
  }

  lemma {:induction false} ReadQuotedExact(f: string, t: string)
    requires t == [] || t[0] != '"'
    ensures ReadQuoted(DoubleQuotes(f) + "\"" + t) == Some((f, t))
  {
    var s := DoubleQuotes(f) + "\"" + t;
    if f == [] {
      assert s == "\"" + t;
      assert s[1..] == t;
    } else {
      ReadQuotedExact(f[1..], t);
      assert f == [f[0]] + f[1..];
      if f[0] == '"' {
        assert s == "\"\"" + (DoubleQuotes(f[1..]) + "\"" + t);
        assert s[2..] == DoubleQuotes(f[1..]) + "\"" + t;
      } else {
        assert s == [f[0]] + (DoubleQuotes(f[1..]) + "\"" + t);
        assert s[1..] == DoubleQuotes(f[1..]) + "\"" + t;
      }
    }
  }

  /** Every field reads back as the text that was escaped, leaving what follows it. */
  lemma ReadFieldEscaped(f: string, t: string)
    requires FieldEnd(t)
    ensures ReadField(EscapeField(f) + t) == Some((f, t))
  {
    if NeedsQuoting(f) {
      ReadQuotedExact(f, t);
      assert (EscapeField(f) + t)[1..] == DoubleQuotes(f) + "\"" + t;
    } else {
      ReadPlainExact(f, t);
      if f != [] {
        assert f[0] in f;
      }
    }
  }

  /** A written line reads back as its fields. */
  lemma {:induction false} ReadRecordJoined(fields: seq<string>, t: string)
    requires fields != []
    requires t == [] || t[0] == '\n'
    ensures ReadRecord(Join(EscapeAll(fields), ',') + t) == Some((fields, t))
  {
    var escaped := EscapeAll(fields);
    if |fields| == 1 {
      assert escaped == [EscapeField(fields[0])];
      ReadFieldEscaped(fields[0], t);
      assert [fields[0]] == fields;
    } else {
      var tail := Join(EscapeAll(fields[1..]), ',') + t;
      assert EscapeAll(fields)[1..] == EscapeAll(fields[1..]);
      assert Join(escaped, ',') + t == EscapeField(fields[0]) + ([','] + tail);
      ReadFieldEscaped(fields[0], [','] + tail);
      assert ([','] + tail)[1..] == tail;
      ReadRecordJoined(fields[1..], t);
      assert [fields[0]] + fields[1..] == fields;
    }
  }

  function Lines(records: seq<seq<string>>): (lines: seq<string>)
    ensures |lines| == |records|
    ensures forall k :: 0 <= k < |records| ==> lines[k] == Join(EscapeAll(records[k]), ',')
  {
    if records == [] then [] else [Join(EscapeAll(records[0]), ',')] + Lines(records[1..])
  }

  /** A written document reads back as its records, provided no record is empty. */
  lemma {:induction false} ReadDocumentJoined(records: seq<seq<string>>)
    requires records != []
    requires forall k :: 0 <= k < |records| ==> records[k] != []
    ensures ReadDocument(Join(Lines(records), '\n')) == Some(records)
  {
    if |records| == 1 {
      var line := Join(EscapeAll(records[0]), ',');
      assert Lines(records) == [line];
      ReadRecordJoined(records[0], []);
      assert line + [] == line;
      assert [records[0]] == records;
    } else {
      var tail := Join(Lines(records[1..]), '\n');
      assert Lines(records)[1..] == Lines(records[1..]);
      assert Join(Lines(records), '\n') == Join(EscapeAll(records[0]), ',') + (['\n'] + tail);
      ReadRecordJoined(records[0], ['\n'] + tail);
      assert (['\n'] + tail)[1..] == tail;
      ReadDocumentJoined(records[1..]);
      assert [records[0]] + records[1..] == records;
    }
  }

  /** The cell texts of every record, one list per record. */
  function Table(data: seq<Row>, headers: seq<string>): (table: seq<seq<string>>)
    ensures |table| == |data|
    ensures forall k :: 0 <= k < |data| ==> table[k] == RowTexts(data[k], headers)
  {
    if data == [] then [] else [RowTexts(data[0], headers)] + Table(data[1..], headers)
  }

  /**
   * Reading back what `arrayToCSV` wrote gives the header line followed by
   * each record's cell texts, for any non-empty list of plain headers.
   */
  lemma ArrayToCsvReadsBack(data: seq<Row>, headers: seq<string>)
    requires headers != []
    requires forall k :: 0 <= k < |headers| ==> !NeedsQuoting(headers[k])
    ensures ReadDocument(ArrayToCsv(data, headers)) == Some([headers] + Table(data, headers))
  {
    var records := [headers] + Table(data, headers);
    assert EscapeAll(headers) == headers;
    assert Lines(records) == [Join(headers, ',')] + RowLines(data, headers);
    forall k | 0 <= k < |records| ensures records[k] != [] {
      if k > 0 {
        assert |records[k]| == |RowTexts(data[k - 1], headers)| == |headers|;
      }
    }
    ReadDocumentJoined(records);
    if data == [] {
      assert Lines(records) == [Join(headers, ',')];
    }
  }

  // ---------------------------------------------------------------------
  // The two sections of the simple CSV export (index.tsx:863-869)
  // ---------------------------------------------------------------------

  const IncomeHeaders: seq<string> := ["id", "date", "type", "amount", "quantity", "unitPrice", "description", "createdAt"]

  const ExpenseHeaders: seq<string> := ["id", "date", "category", "amount", "description", "createdAt"]

  function OptText(s: Option<string>): Cell {
    if s.Some? then Text(s.value) else Absent
  }

  function OptNumber(n: Option<int>): Cell {
    if n.Some? then Number(n.value) else Absent
  }

  /** The properties of a stored income, as `item[header]` reads them. */
  function IncomeRow(i: Income): (row: Row)
    ensures forall h :: h in IncomeHeaders ==> h in row
  {
    map["id" := Text(i.id), "date" := OptText(i.date), "type" := OptText(i.livestockType),
        "amount" := OptNumber(i.amount), "quantity" := OptNumber(i.quantity),
        "unitPrice" := OptNumber(i.unitPrice), "description" := OptText(i.description),
        "createdAt" := Text(i.createdAt)]
  }

  /** The properties of a stored expense, as `item[header]` reads them. */
  function ExpenseRow(e: Expense): (row: Row)
    ensures forall h :: h in ExpenseHeaders ==> h in row
  {
    map["id" := Text(e.id), "date" := OptText(e.date), "category" := OptText(e.category),
        "amount" := OptNumber(e.amount), "quantity" := OptNumber(e.quantity),
        "unitPrice" := OptNumber(e.unitPrice), "description" := OptText(e.description),
        "createdAt" := Text(e.createdAt)]
  }

  function IncomeRows(incomes: seq<Income>): (rows: seq<Row>)
    ensures |rows| == |incomes|
    ensures forall k :: 0 <= k < |incomes| ==> rows[k] == IncomeRow(incomes[k])
  {
    if incomes == [] then [] else [IncomeRow(incomes[0])] + IncomeRows(incomes[1..])
  }

  function ExpenseRows(expenses: seq<Expense>): (rows: seq<Row>)
    ensures |rows| == |expenses|
    ensures forall k :: 0 <= k < |expenses| ==> rows[k] == ExpenseRow(expenses[k])
  {
    if expenses == [] then [] else [ExpenseRow(expenses[0])] + ExpenseRows(expenses[1..])
  }

  /** The body of the simple CSV export: an income section, a blank line, an expense section. */
  function SimpleExport(incomes: seq<Income>, expenses: seq<Expense>): string {
    "=== PEMASUKAN ===\n" + ArrayToCsv(IncomeRows(incomes), IncomeHeaders)
    + "\n\n=== PENGELUARAN ===\n" + ArrayToCsv(ExpenseRows(expenses), ExpenseHeaders)
  }

  /** Both sections of the simple export read back as the header line and the records' cell texts. */
  lemma SimpleExportSectionsReadBack(incomes: seq<Income>, expenses: seq<Expense>)
    ensures ReadDocument(ArrayToCsv(IncomeRows(incomes), IncomeHeaders))
            == Some([IncomeHeaders] + Table(IncomeRows(incomes), IncomeHeaders))
    ensures ReadDocument(ArrayToCsv(ExpenseRows(expenses), ExpenseHeaders))
            == Some([ExpenseHeaders] + Table(ExpenseRows(expenses), ExpenseHeaders))
  {
    forall k | 0 <= k < |IncomeHeaders| ensures !NeedsQuoting(IncomeHeaders[k]) {
      assert IncomeHeaders[k] in IncomeHeaders;
    }
    forall k | 0 <= k < |ExpenseHeaders| ensures !NeedsQuoting(ExpenseHeaders[k]) {
      assert ExpenseHeaders[k] in ExpenseHeaders;
    }
    ArrayToCsvReadsBack(IncomeRows(incomes), IncomeHeaders);
    ArrayToCsvReadsBack(ExpenseRows(expenses), ExpenseHeaders);
  }
}
