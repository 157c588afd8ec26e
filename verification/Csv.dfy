/** The audit export: CSV text, and a reader of the grammar in section 2 of RFC 4180 that gets every
    cell back. */
module Csv {
  import opened Wrappers
  import opened Lists

  const HEADERS: seq<string> := [
    "id", "orgId", "createdAt", "action", "category", "resourceType", "resourceId", "actorPrincipalId",
    "runId", "decision", "risk", "eventHash", "dataHash", "message", "data"]

  /** An export record: its defined fields as text, and `JSON.stringify(record.data ?? {})`. */
  datatype AuditRecord = AuditRecord(fields: map<string, string>, dataJson: string)

  function ExportValue(record: AuditRecord, header: string): string {
    if header == "data" then record.dataJson
    else if header in record.fields then record.fields[header]
    else ""
  }

  // ---------------------------------------------------------------- writing

  predicate NeedsQuotes(value: string) {
    '\"' in value || ',' in value || '\n' in value || '\r' in value
  }

  function DoubleQuotes(value: string): string {
    if value == "" then ""
    else (if value[0] == '\"' then "\"\"" else [value[0]]) + DoubleQuotes(value[1..])
  }

  function Cell(value: string): string {
    if NeedsQuotes(value) then "\"" + DoubleQuotes(value) + "\"" else value
  }

  function Cells(values: seq<string>): (cells: seq<string>)
    ensures |cells| == |values| && forall i :: 0 <= i < |values| ==> cells[i] == Cell(values[i])
  {
    seq(|values|, i requires 0 <= i < |values| => Cell(values[i]))
  }

  function Line(values: seq<string>): string {
    Join(Cells(values), ",")
  }

  function Lines(rows: seq<seq<string>>): (lines: seq<string>)
    ensures |lines| == |rows| && forall i :: 0 <= i < |rows| ==> lines[i] == Line(rows[i])
  {
    seq(|rows|, i requires 0 <= i < |rows| => Line(rows[i]))
  }

  function Format(rows: seq<seq<string>>): string {
    Join(Lines(rows), "\n")
  }

  function RecordRow(record: AuditRecord): (row: seq<string>)
    ensures |row| == |HEADERS| && forall i :: 0 <= i < |row| ==> row[i] == ExportValue(record, HEADERS[i])
  {
    seq(|HEADERS|, i requires 0 <= i < |HEADERS| => ExportValue(record, HEADERS[i]))
  }

  function RecordRows(records: seq<AuditRecord>): (rows: seq<seq<string>>)
    ensures |rows| == |records| && forall i :: 0 <= i < |records| ==> rows[i] == RecordRow(records[i])
  {
    seq(|records|, i requires 0 <= i < |records| => RecordRow(records[i]))
  }

  function FormatAuditEventExport(records: seq<AuditRecord>): string {
    Join([Line(HEADERS)] + Lines(RecordRows(records)), "\n")
  }

  // ---------------------------------------------------------------- reading

  datatype Read<T> = Read(value: T, rest: string)

  /** Inside quotes: everything up to a lone quote, a doubled quote standing for one. */
  function ReadQuoted(text: string): (r: Option<Read<string>>)
    ensures r.Some? ==> |r.value.rest| < |text|
  {
    if text == "" then None
    else if text[0] == '\"' then
      if |text| > 1 && text[1] == '\"' then
        match ReadQuoted(text[2..])
        case None => None
        case Some(Read(value, rest)) => Some(Read("\"" + value, rest))
      else Some(Read("", text[1..]))
    else
      match ReadQuoted(text[1..])
      case None => None
      case Some(Read(value, rest)) => Some(Read([text[0]] + value, rest))
  }

  /** TEXTDATA: anything but a quote, a comma or a line-break character. */
  function ReadPlain(text: string): (r: Read<string>)
    ensures |r.rest| <= |text|
  {
    if text == "" || text[0] in "\",\n\r" then Read("", text)
    else var r := ReadPlain(text[1..]); Read([text[0]] + r.value, r.rest)
  }

  function ReadCell(text: string): (r: Option<Read<string>>)
    ensures r.Some? ==> |r.value.rest| <= |text|
  {
    if text != "" && text[0] == '\"' then ReadQuoted(text[1..]) else Some(ReadPlain(text))
  }

  function ReadRow(text: string): (r: Option<Read<seq<string>>>)
    ensures r.Some? ==> |r.value.rest| <= |text|
    decreases |text|
  {
    match ReadCell(text)
    case None => None
    case Some(Read(cell, rest)) =>
      if rest != "" && rest[0] == ',' then
        match ReadRow(rest[1..])
        case None => None
        case Some(Read(cells, rest')) => Some(Read([cell] + cells, rest'))
      else Some(Read([cell], rest))
  }

  /** Rows separated by LF or CRLF; the last one may be ended by a break too. */
  function Parse(text: string): Option<seq<seq<string>>>
    decreases |text|
  {
    match ReadRow(text)
    case None => None
    case Some(Read(row, rest)) =>
      var breakLength := if "\r\n" <= rest then 2 else if "\n" <= rest then 1 else 0;
      if rest == "" || |rest| == breakLength then Some([row])
      else if breakLength == 0 then None
      else
        match Parse(rest[breakLength..])
        case None => None
        case Some(rows) => Some([row] + rows)
  }

  // ---------------------------------------------------------------- the round trip

  /** What follows a cell in the export. */
  predicate Ends(rest: string) {
    rest == "" || rest[0] == ',' || rest[0] == '\n'
  }

  lemma {:induction false} ReadQuotedBack(value: string, rest: string)
    requires Ends(rest)
    ensures ReadQuoted(DoubleQuotes(value) + ("\"" + rest)) == Some(Read(value, rest))
  {
    var text := DoubleQuotes(value) + ("\"" + rest);
    if value == "" {
      assert text == "\"" + rest;
      assert text[1..] == rest;
    } else {
      var tail := DoubleQuotes(value[1..]) + ("\"" + rest);
      ReadQuotedBack(value[1..], rest);
      assert value == [value[0]] + value[1..];
      if value[0] == '\"' {
        assert text == "\"\"" + tail;
        assert text[2..] == tail;
      } else {
        assert text == [value[0]] + tail;
        assert text[1..] == tail;
      }
    }
  }

  lemma {:induction false} ReadPlainBack(value: string, rest: string)
    requires Ends(rest) && !NeedsQuotes(value)
    ensures ReadPlain(value + rest) == Read(value, rest)
  {
    if value == "" {
      assert value + rest == rest;
    } else {
      assert value[0] in value;
      assert (value + rest)[1..] == value[1..] + rest;
      ReadPlainBack(value[1..], rest);
      assert value == [value[0]] + value[1..];
    }
  }

  lemma ReadCellBack(value: string, rest: string)
    requires Ends(rest)
    ensures ReadCell(Cell(value) + rest) == Some(Read(value, rest))
  {
    if NeedsQuotes(value) {
      var tail := DoubleQuotes(value) + ("\"" + rest);
      assert Cell(value) + rest == "\"" + tail;
      assert ("\"" + tail)[1..] == tail;
      ReadQuotedBack(value, rest);
    } else {
      ReadPlainBack(value, rest);
      assert value != "" ==> (value + rest)[0] in value;
    }
  }

  lemma {:induction false} ReadRowBack(values: seq<string>, rest: string)
    requires values != [] && (rest == "" || rest[0] == '\n')
    ensures ReadRow(Line(values) + rest) == Some(Read(values, rest))
  {
    var text := Line(values) + rest;
    if |values| == 1 {
      ReadCellBack(values[0], rest);
      assert values == [values[0]];
    } else {
      var tail := Line(values[1..]) + rest;
      assert Cells(values)[1..] == Cells(values[1..]);
      assert text == Cell(values[0]) + ("," + tail);
      ReadCellBack(values[0], "," + tail);
      assert ("," + tail)[1..] == tail;
      ReadRowBack(values[1..], rest);
      assert values == [values[0]] + values[1..];
    }
  }

  /** A row of two cells or more is never the empty text. */
  lemma LineNotEmpty(values: seq<string>)
    requires |values| >= 2
    ensures Line(values) != ""
  {
  }

  /** Any table of rows with at least two cells reads back exactly, whatever its cells contain. */
  lemma {:induction false} ParseFormat(rows: seq<seq<string>>)
    requires rows != [] && forall row :: row in rows ==> |row| >= 2
    ensures Parse(Format(rows)) == Some(rows)
  {
    hide ReadRow, Line, Parse;
    assert rows[0] in rows;
    if |rows| == 1 {
      assert Format(rows) == Line(rows[0]) + "";
      ReadRowBack(rows[0], "");
      ParseLast(Format(rows), rows[0]);
      assert rows == [rows[0]];
    } else {
      var tail := Format(rows[1..]);
      assert Lines(rows)[1..] == Lines(rows[1..]);
      assert Format(rows) == Line(rows[0]) + ("\n" + tail);
      ReadRowBack(rows[0], "\n" + tail);
      FormatNotEmpty(rows[1..]);
      assert forall row :: row in rows[1..] ==> row in rows;
      ParseFormat(rows[1..]);
      ParseMore(Format(rows), rows[0], tail);
      assert rows == [rows[0]] + rows[1..];
    }
  }

  lemma ParseLast(text: string, row: seq<string>)
    requires ReadRow(text) == Some(Read(row, ""))
    ensures Parse(text) == Some([row])
  {
  }

  lemma ParseMore(text: string, row: seq<string>, tail: string)
    requires ReadRow(text) == Some(Read(row, "\n" + tail)) && tail != "" && Parse(tail).Some?
    ensures Parse(text) == Some([row] + Parse(tail).value)
  {
    assert ("\n" + tail)[1..] == tail;
  }

  lemma FormatNotEmpty(rows: seq<seq<string>>)
    requires rows != [] && forall row :: row in rows ==> |row| >= 2
    ensures Format(rows) != ""
  {
    assert rows[0] in rows;
    LineNotEmpty(rows[0]);
  }

  lemma HeaderedReadsBack(header: seq<string>, rows: seq<seq<string>>)
    requires |header| >= 2 && forall row :: row in rows ==> |row| >= 2
    ensures Parse(Join([Line(header)] + Lines(rows), "\n")) == Some([header] + rows)
  {
    assert Lines([header] + rows) == [Line(header)] + Lines(rows);
    ParseFormat([header] + rows);
  }

  /** The export gives back its header row and, for every record, exactly its cell strings. */
  lemma ExportReadsBack(records: seq<AuditRecord>)
    ensures Parse(FormatAuditEventExport(records)) == Some([HEADERS] + RecordRows(records))
  {
    HeaderedReadsBack(HEADERS, RecordRows(records));
  }

  /** So two exports with the same text exported the same cells. */
  lemma ExportInjective(a: seq<AuditRecord>, b: seq<AuditRecord>)
    requires FormatAuditEventExport(a) == FormatAuditEventExport(b)
    ensures |a| == |b|
    ensures forall i, h :: 0 <= i < |a| && h in HEADERS ==> ExportValue(a[i], h) == ExportValue(b[i], h)
  {
    ExportReadsBack(a);
    ExportReadsBack(b);
    assert ([HEADERS] + RecordRows(a))[1..] == RecordRows(a);
    assert ([HEADERS] + RecordRows(b))[1..] == RecordRows(b);
    forall i, h | 0 <= i < |a| && h in HEADERS ensures ExportValue(a[i], h) == ExportValue(b[i], h) {
      var k :| 0 <= k < |HEADERS| && HEADERS[k] == h;
      assert RecordRow(a[i])[k] == RecordRow(b[i])[k];
    }
  }
}
