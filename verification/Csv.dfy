/**
 The CSV printer of src/common/utils/csv.ts and an independent reader of the format of section 2 of
 RFC 4180, with CRLF as record separator (a line break after the last record, optional there, starts another).
 The main result is that reading what was printed gives the table back, for every table.
 */
module Csv {
  import opened Basics

  /** A cell is `null`/`undefined`, or a value together with its string form. */
  datatype Value = Absent | Text(text: string)

  /** A row object: its keys in insertion order and the value under each key. */
  datatype Row = Row(keys: seq<string>, cells: map<string, Value>)

  const QUOTE: char := '\"'
  const CR: char := '\r'
  const LF: char := '\n'
  const CRLF: string := [CR, LF]

  // ---------- Printing ----------

  predicate NeedsQuotes(s: string) {
    QUOTE in s || ',' in s || LF in s || CR in s
  }

  function DoubleQuotes(s: string): string {
    if s == "" then "" else
    (if s[0] == QUOTE then [QUOTE, QUOTE] else [s[0]]) + DoubleQuotes(s[1..])
  }

  function Escape(s: string): string {
    if NeedsQuotes(s) then [QUOTE] + DoubleQuotes(s) + [QUOTE] else s
  }

  function EscapeCsvField(value: Value): string {
    match value
    case Absent => ""
    case Text(text) => Escape(text)
  }

  /** JavaScript's `parts.join(separator)`. */
  function Join(parts: seq<string>, separator: string): string {
    if parts == [] then ""
    else if |parts| == 1 then parts[0]
    else parts[0] + separator + Join(parts[1..], separator)
  }

  function PrintRecord(fields: seq<string>): string {
    Join(seq(|fields|, i requires 0 <= i < |fields| => Escape(fields[i])), ",")
  }

  function PrintTable(table: seq<seq<string>>): string {
    Join(seq(|table|, i requires 0 <= i < |table| => PrintRecord(table[i])), CRLF)
  }

  lemma DoubledIsLonger(s: string)
    ensures |DoubleQuotes(s)| >= |s|
  {
  }

  /** A field is printed as it is exactly when it has no quote, comma or line break. */
  lemma EscapedWhenNeeded(s: string)
    ensures Escape(s) == s <==> forall c :: c in s ==> c != '\"' && c != ',' && c != '\n' && c != '\r'
  {
    DoubledIsLonger(s);
    assert NeedsQuotes(s) ==> |Escape(s)| >= |s| + 2;
  }

  // ---------- Which table is printed ----------

  function Headers(rows: seq<Row>, columns: Option<seq<string>>): seq<string> {
    if columns.Some? then columns.value else if |rows| > 0 then rows[0].keys else []
  }

  /** The value of `row[key]`; a missing key reads as `undefined`. */
  function CellAt(row: Row, key: string): Value {
    if key in row.cells then row.cells[key] else Absent
  }

  function Shown(value: Value): string {
    if value.Absent? then "" else value.text
  }

  function Fields(row: Row, headers: seq<string>): (fields: seq<string>)
    ensures |fields| == |headers|
  {
    seq(|headers|, i requires 0 <= i < |headers| => Shown(CellAt(row, headers[i])))
  }

  /** The header record followed by one record per row. */
  function TableOf(rows: seq<Row>, headers: seq<string>): seq<seq<string>> {
    [headers] + seq(|rows|, i requires 0 <= i < |rows| => Fields(rows[i], headers))
  }

  /** A row's cell under a header: its text, or nothing where the row has none. */
  predicate IsCell(row: Row, header: string, shown: string) {
    if header in row.cells && row.cells[header].Text? then shown == row.cells[header].text else shown == ""
  }

  /** The headers first, then each row's cells under them. */
  predicate IsTableOf(table: seq<seq<string>>, rows: seq<Row>, headers: seq<string>) {
    && |table| == |rows| + 1 && table[0] == headers
    && forall i :: 0 <= i < |rows| ==>
         && |table[i + 1]| == |headers|
         && forall j :: 0 <= j < |headers| ==> IsCell(rows[i], headers[j], table[i + 1][j])
  }

  /** The text reads back as that table; without headers nothing is printed. */
  predicate Shows(csv: string, rows: seq<Row>, headers: seq<string>) {
    if headers == [] then csv == "" else Parse(csv).Some? && IsTableOf(Parse(csv).value, rows, headers)
  }

  /** The printer itself: header line, then one line per row, joined with CRLF. */
  method ToCsv(rows: seq<Row>, columns: Option<seq<string>>) returns (csv: string)
    ensures columns.Some? ==> Shows(csv, rows, columns.value)
    ensures columns.None? ==> if rows == [] then csv == "" else Shows(csv, rows, rows[0].keys)
    ensures Headers(rows, columns) != [] ==> csv == PrintTable(TableOf(rows, Headers(rows, columns)))
  {
    var headers := Headers(rows, columns);
    if |headers| == 0 {
      return "";
    }
    var names := seq(|headers|, i requires 0 <= i < |headers| => EscapeCsvField(Text(headers[i])));
    assert names == seq(|headers|, i requires 0 <= i < |headers| => Escape(headers[i]));
    var lines := [Join(names, ",")];
    ghost var table := TableOf(rows, headers);
    for n := 0 to |rows|
      invariant |lines| == n + 1
      invariant forall i :: 0 <= i <= n ==> lines[i] == PrintRecord(table[i])
    {
      var cells := seq(|headers|, i requires 0 <= i < |headers| => EscapeCsvField(CellAt(rows[n], headers[i])));
      ghost var shown := seq(|headers|, i requires 0 <= i < |headers| => Escape(Fields(rows[n], headers)[i]));
      assert cells == shown;
      lines := lines + [Join(cells, ",")];
    }
    assert lines == seq(|table|, i requires 0 <= i < |table| => PrintRecord(table[i]));
    RoundTrip(table);
    csv := Join(lines, CRLF);
  }

  // ---------- Reading, with CRLF as record separator ----------

  /** Where the reader stands inside the current field. */
  datatype Mode = Start | Plain | Quoted | Closed

  function Parse(s: string): Option<seq<seq<string>>> {
    Scan(s, Start, "", [], [])
  }

  function Scan(s: string, mode: Mode, field: string, record: seq<string>, records: seq<seq<string>>)
    : Option<seq<seq<string>>>
    decreases |s|
  {
    if s == "" then
      if mode.Quoted? then None else Some(records + [record + [field]])
    else if mode.Quoted? then
      if s[0] == QUOTE then Scan(s[1..], Closed, field, record, records)
      else Scan(s[1..], Quoted, field + [s[0]], record, records)
    else if s[0] == ',' then
      Scan(s[1..], Start, "", record + [field], records)
    else if s[0] == CR && |s| > 1 && s[1] == LF then
      Scan(s[2..], Start, "", [], records + [record + [field]])
    else if s[0] == QUOTE then
      match mode {
        case Start => Scan(s[1..], Quoted, field, record, records)
        case Closed => Scan(s[1..], Quoted, field + [QUOTE], record, records)
        case _ => None
      }
    else if mode.Closed? || s[0] == CR || s[0] == LF then None
    else Scan(s[1..], Plain, field + [s[0]], record, records)
  }

  /** What may follow a complete field: the end, a comma, or a record separator. */
  predicate EndsField(rest: string) {
    rest == "" || rest[0] == ',' || (|rest| > 1 && rest[..2] == CRLF)
  }

  lemma {:induction false} ScanPlainField(
    f: string, rest: string, mode: Mode, field: string, record: seq<string>, records: seq<seq<string>>)
    requires mode == Start || mode == Plain
    requires !NeedsQuotes(f) && EndsField(rest)
    ensures Scan(f + rest, mode, field, record, records) == Scan(rest, Closed, field + f, record, records)
  {
    if f == "" {
      assert f + rest == rest && field + f == field;
    } else {
      assert (f + rest)[1..] == f[1..] + rest;
      assert field + [f[0]] + f[1..] == field + f;
      ScanPlainField(f[1..], rest, Plain, field + [f[0]], record, records);
    }
  }

  lemma {:induction false} ScanQuotedField(
    f: string, rest: string, field: string, record: seq<string>, records: seq<seq<string>>)
    requires EndsField(rest)
    ensures Scan(DoubleQuotes(f) + [QUOTE] + rest, Quoted, field, record, records)
         == Scan(rest, Closed, field + f, record, records)
  {
    var text := DoubleQuotes(f) + [QUOTE] + rest;
    if f == "" {
      assert text == [QUOTE] + rest && field + f == field;
    } else {
      var tail := DoubleQuotes(f[1..]) + [QUOTE] + rest;
      assert field + [f[0]] + f[1..] == field + f;
      if f[0] == QUOTE {
        assert text == [QUOTE, QUOTE] + tail;
        assert text[1..] == [QUOTE] + tail;
        assert text[1..][1..] == tail;
      } else {
        assert text == [f[0]] + tail;
      }
      ScanQuotedField(f[1..], rest, field + [f[0]], record, records);
    }
  }

  lemma ScanOpeningQuote(tail: string, record: seq<string>, records: seq<seq<string>>)
    ensures Scan([QUOTE] + tail, Start, "", record, records) == Scan(tail, Quoted, "", record, records)
  {
    assert ([QUOTE] + tail)[1..] == tail;
  }

  lemma ScanEscapedField(f: string, rest: string, record: seq<string>, records: seq<seq<string>>)
    requires EndsField(rest)
    ensures Scan([QUOTE] + DoubleQuotes(f) + [QUOTE] + rest, Start, "", record, records)
         == Scan(rest, Closed, f, record, records)
  {
    var tail := DoubleQuotes(f) + [QUOTE] + rest;
    assert [QUOTE] + DoubleQuotes(f) + [QUOTE] + rest == [QUOTE] + tail;
    ScanOpeningQuote(tail, record, records);
    ScanQuotedField(f, rest, "", record, records);
    assert "" + f == f;
  }

  lemma ScanField(f: string, rest: string, record: seq<string>, records: seq<seq<string>>)
    requires EndsField(rest)
    ensures Scan(Escape(f) + rest, Start, "", record, records) == Scan(rest, Closed, f, record, records)
  {
    if NeedsQuotes(f) {
      ScanEscapedField(f, rest, record, records);
    } else {
      ScanPlainField(f, rest, Start, "", record, records);
      assert "" + f == f;
    }
  }

  lemma PrintRecordFirst(fields: seq<string>, rest: string)
    requires |fields| > 1
    ensures PrintRecord(fields) + rest == Escape(fields[0]) + ("," + (PrintRecord(fields[1..]) + rest))
  {
    assert seq(|fields|, i requires 0 <= i < |fields| => Escape(fields[i]))[1..]
        == seq(|fields[1..]|, i requires 0 <= i < |fields[1..]| => Escape(fields[1..][i]));
  }

  lemma PrintTableFirst(table: seq<seq<string>>)
    requires |table| > 1 && forall i :: 0 <= i < |table| ==> table[i] != []
    ensures PrintTable(table) == PrintRecord(table[0]) + (CRLF + PrintTable(table[1..]))
  {
    assert seq(|table|, i requires 0 <= i < |table| => PrintRecord(table[i]))[1..]
        == seq(|table[1..]|, i requires 0 <= i < |table[1..]| => PrintRecord(table[1..][i]));
  }

  lemma {:induction false} ScanRecord(
    fields: seq<string>, rest: string, record: seq<string>, records: seq<seq<string>>)
    requires fields != []
    requires rest == "" || (|rest| > 1 && rest[..2] == CRLF)
    ensures Scan(PrintRecord(fields) + rest, Start, "", record, records)
         == if rest == "" then Some(records + [record + fields])
            else Scan(rest[2..], Start, "", [], records + [record + fields])
    decreases |fields|
  {
    if |fields| == 1 {
      assert PrintRecord(fields) == Escape(fields[0]);
      assert record + [fields[0]] == record + fields;
      ScanField(fields[0], rest, record, records);
    } else {
      var tail := PrintRecord(fields[1..]) + rest;
      PrintRecordFirst(fields, rest);
      ScanField(fields[0], "," + tail, record, records);
      assert ("," + tail)[1..] == tail;
      assert record + [fields[0]] + fields[1..] == record + fields;
      ScanRecord(fields[1..], rest, record + [fields[0]], records);
    }
  }

  lemma {:induction false} ScanTable(table: seq<seq<string>>, records: seq<seq<string>>)
    requires table != [] && forall i :: 0 <= i < |table| ==> table[i] != []
    ensures Scan(PrintTable(table), Start, "", [], records) == Some(records + table)
    decreases |table|
  {
    assert [] + table[0] == table[0];
    if |table| == 1 {
      assert PrintTable(table) == PrintRecord(table[0]) + "";
      assert records + [table[0]] == records + table;
      ScanRecord(table[0], "", [], records);
    } else {
      var tail := PrintTable(table[1..]);
      PrintTableFirst(table);
      ScanRecord(table[0], CRLF + tail, [], records);
      assert (CRLF + tail)[2..] == tail;
      assert records + [table[0]] + table[1..] == records + table;
      ScanTable(table[1..], records + [table[0]]);
    }
  }

  /** Every table whose records have at least one field is read back exactly as it was printed. */
  lemma RoundTrip(table: seq<seq<string>>)
    requires table != [] && forall i :: 0 <= i < |table| ==> table[i] != []
    ensures Parse(PrintTable(table)) == Some(table)
  {
    ScanTable(table, []);
    assert [] + table == table;
  }

  /** Two row lists that print alike under the same columns show the same cells. */
  lemma PrintingIsInjective(rows: seq<Row>, others: seq<Row>, headers: seq<string>)
    requires headers != []
    requires PrintTable(TableOf(rows, headers)) == PrintTable(TableOf(others, headers))
    ensures |rows| == |others|
    ensures forall i :: 0 <= i < |rows| ==> Fields(rows[i], headers) == Fields(others[i], headers)
  {
    var t, u := TableOf(rows, headers), TableOf(others, headers);
    RoundTrip(t);
    RoundTrip(u);
    assert t == u;
    forall i | 0 <= i < |rows|
      ensures Fields(rows[i], headers) == Fields(others[i], headers)
    {
      assert t[i + 1] == u[i + 1];
    }
  }
}
