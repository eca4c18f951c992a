/**
 * CSV export (src/modules/analytics/analytics-export.service.ts): printing, and a reader that follows
 * section 2 of RFC 4180 and ends records only at CRLF.
 */
module CsvExport {
  import opened Domain

  type Field = string
  type Record = seq<Field>

  // ----- Printing -----

  /** `field.replace(/"/g, '""')` */
  function Doubled(f: string): string {
    if f == "" then "" else (if f[0] == '"' then "\"\"" else [f[0]]) + Doubled(f[1..])
  }

  function EscapeField(f: Field): string {
    if ',' in f || '"' in f || '\n' in f then "\"" + Doubled(f) + "\"" else f
  }

  /** A record without fields prints as the empty text. */
  function PrintRecord(r: Record): string {
    if r == [] then "" else if |r| == 1 then EscapeField(r[0]) else EscapeField(r[0]) + "," + PrintRecord(r[1..])
  }

  function PrintTable(table: seq<Record>): string
    requires table != []
  {
    if |table| == 1 then PrintRecord(table[0]) else PrintRecord(table[0]) + "\r\n" + PrintTable(table[1..])
  }

  function ToCsv(headers: Record, rows: seq<Record>): string {
    PrintTable([headers] + rows)
  }

  /** A field is quoted exactly when it has a comma, a quote or a line feed; otherwise it is printed as it is. */
  lemma QuotedIff(f: Field)
    ensures EscapeField(f) == f <==> ',' !in f && '"' !in f && '\n' !in f
    ensures EscapeField(f) != f ==> |EscapeField(f)| >= |f| + 2 && EscapeField(f)[0] == '"' && EscapeField(f)[|EscapeField(f)| - 1] == '"'
  {
    DoubledGrows(f);
  }

  lemma {:induction false} DoubledGrows(f: string)
    ensures |f| <= |Doubled(f)|
  {
    if f != "" {
      DoubledGrows(f[1..]);
    }
  }

  // ----- Reading -----

  datatype Mode = Start | Bare | Quoted | Closed

  predicate AtBreak(s: string) {
    |s| >= 2 && s[0] == '\r' && s[1] == '\n'
  }

  /**
   * A reader of comma-separated values. `lastBreak` says whether a line break at the very end of the
   * file belongs to the last record, which the RFC leaves open, or starts one more record.
   */
  function Read(s: string, mode: Mode, field: Field, record: Record, table: seq<Record>, lastBreak: bool): Option<seq<Record>>
    decreases |s|
  {
    if s == "" then
      if mode.Quoted? then None
      else if lastBreak && mode.Start? && record == [] && table != [] then Some(table)
      else Some(table + [record + [field]])
    else if mode.Quoted? then
      if s[0] == '"' then Read(s[1..], Closed, field, record, table, lastBreak)
      else Read(s[1..], Quoted, field + [s[0]], record, table, lastBreak)
    else if s[0] == ',' then Read(s[1..], Start, "", record + [field], table, lastBreak)
    else if AtBreak(s) then Read(s[2..], Start, "", [], table + [record + [field]], lastBreak)
    else if s[0] == '"' then
      if mode.Start? then Read(s[1..], Quoted, "", record, table, lastBreak)
      else if mode.Closed? then Read(s[1..], Quoted, field + ['"'], record, table, lastBreak)
      else None
    else if mode.Closed? then None
    else Read(s[1..], Bare, field + [s[0]], record, table, lastBreak)
  }

  function ReadCsv(text: string, lastBreak: bool): Option<seq<Record>> {
    Read(text, Start, "", [], [], lastBreak)
  }

  // ----- One field -----

  /** What may follow a field: the end, a comma, or a line break. */
  predicate AtDelimiter(rest: string) {
    rest == "" || rest[0] == ',' || AtBreak(rest)
  }

  lemma {:induction false} QuotedReads(f: string, rest: string, acc: string, record: Record, table: seq<Record>, lastBreak: bool)
    requires AtDelimiter(rest)
    ensures Read(Doubled(f) + "\"" + rest, Quoted, acc, record, table, lastBreak) == Read(rest, Closed, acc + f, record, table, lastBreak)
    decreases |f|
  {
    if f == "" {
      assert Doubled(f) + "\"" + rest == "\"" + rest;
      assert ("\"" + rest)[1..] == rest && acc + f == acc;
    } else {
      var tail := Doubled(f[1..]) + "\"" + rest;
      QuotedReads(f[1..], rest, acc + [f[0]], record, table, lastBreak);
      assert acc + [f[0]] + f[1..] == acc + f;
      if f[0] == '"' {
        assert Doubled(f) + "\"" + rest == "\"\"" + tail;
        assert ("\"\"" + tail)[1..] == "\"" + tail && ("\"" + tail)[1..] == tail;
        assert Read("\"" + tail, Closed, acc, record, table, lastBreak) == Read(tail, Quoted, acc + ['"'], record, table, lastBreak);
      } else {
        assert Doubled(f) + "\"" + rest == [f[0]] + tail;
        assert ([f[0]] + tail)[1..] == tail;
      }
    }
  }

  predicate NeedsNoQuotes(f: string) {
    ',' !in f && '"' !in f && '\n' !in f
  }

  lemma {:induction false} BareReads(f: string, rest: string, mode: Mode, acc: string, record: Record, table: seq<Record>, lastBreak: bool)
    requires f != "" && NeedsNoQuotes(f) && AtDelimiter(rest) && (mode.Start? || mode.Bare?)
    ensures Read(f + rest, mode, acc, record, table, lastBreak) == Read(rest, Bare, acc + f, record, table, lastBreak)
    decreases |f|
  {
    assert (f + rest)[0] == f[0] && (f + rest)[1..] == f[1..] + rest;
    assert f[0] in f;
    NoBreakInside(f, rest);
    if |f| > 1 {
      assert NeedsNoQuotes(f[1..]);
      BareReads(f[1..], rest, Bare, acc + [f[0]], record, table, lastBreak);
      assert acc + [f[0]] + f[1..] == acc + f;
    } else {
      assert f == [f[0]] && f[1..] + rest == rest;
    }
  }

  /** A bare carriage return in a field, even its last character, is not read as a line break. */
  lemma NoBreakInside(f: string, rest: string)
    requires f != "" && NeedsNoQuotes(f) && AtDelimiter(rest)
    ensures !AtBreak(f + rest)
  {
  }

  /** The reader's state after the field `f`, with `rest` to come. */
  function AfterField(rest: string, f: Field, record: Record, table: seq<Record>, lastBreak: bool): Option<seq<Record>>
    requires AtDelimiter(rest)
  {
    if rest == "" then Some(table + [record + [f]])
    else if rest[0] == ',' then Read(rest[1..], Start, "", record + [f], table, lastBreak)
    else Read(rest[2..], Start, "", [], table + [record + [f]], lastBreak)
  }

  lemma QuotedFieldReads(f: Field, rest: string, record: Record, table: seq<Record>, lastBreak: bool)
    requires AtDelimiter(rest) && !NeedsNoQuotes(f)
    ensures Read(EscapeField(f) + rest, Start, "", record, table, lastBreak) == AfterField(rest, f, record, table, lastBreak)
  {
    var body := Doubled(f) + "\"" + rest;
    assert EscapeField(f) + rest == "\"" + body && ("\"" + body)[1..] == body;
    QuotedReads(f, rest, "", record, table, lastBreak);
    assert "" + f == f;
  }

  lemma BareFieldReads(f: Field, rest: string, record: Record, table: seq<Record>, lastBreak: bool)
    requires AtDelimiter(rest) && NeedsNoQuotes(f) && f != ""
    ensures Read(EscapeField(f) + rest, Start, "", record, table, lastBreak) == AfterField(rest, f, record, table, lastBreak)
  {
    BareReads(f, rest, Start, "", record, table, lastBreak);
    assert "" + f == f;
  }

  /** Printing a field is undone, unless it is an empty record at the end that `lastBreak` takes away. */
  lemma FieldReads(f: Field, rest: string, record: Record, table: seq<Record>, lastBreak: bool)
    requires AtDelimiter(rest)
    ensures Read(EscapeField(f) + rest, Start, "", record, table, lastBreak) ==
            if lastBreak && f == "" && rest == "" && record == [] && table != [] then Some(table)
            else AfterField(rest, f, record, table, lastBreak)
  {
    if !NeedsNoQuotes(f) {
      QuotedFieldReads(f, rest, record, table, lastBreak);
    } else if f != "" {
      BareFieldReads(f, rest, record, table, lastBreak);
    } else {
      assert EscapeField(f) + rest == rest;
    }
  }

  // ----- Records and tables -----

  /** What the text of a record stands for: no text tells a record without fields from one empty field. */
  function Legible(r: Record): (l: Record)
    ensures l != []
  {
    if r == [] then [""] else r
  }

  function AllLegible(table: seq<Record>): (t: seq<Record>)
    ensures |t| == |table|
  {
    seq(|table|, i requires 0 <= i < |table| => Legible(table[i]))
  }

  lemma {:induction false} RecordReads(r: Record, rest: string, record: Record, table: seq<Record>, lastBreak: bool)
    requires r != [] && (rest == "" || AtBreak(rest))
    ensures Read(PrintRecord(r) + rest, Start, "", record, table, lastBreak) ==
            if lastBreak && r == [""] && rest == "" && record == [] && table != [] then Some(table)
            else if rest == "" then Some(table + [record + r])
            else Read(rest[2..], Start, "", [], table + [record + r], lastBreak)
    decreases |r|
  {
    if |r| == 1 {
      assert r == [r[0]];
      FieldReads(r[0], rest, record, table, lastBreak);
    } else {
      var tail := "," + PrintRecord(r[1..]) + rest;
      assert PrintRecord(r) + rest == EscapeField(r[0]) + tail;
      FieldReads(r[0], tail, record, table, lastBreak);
      assert tail[1..] == PrintRecord(r[1..]) + rest;
      RecordReads(r[1..], rest, record + [r[0]], table, lastBreak);
      assert record + [r[0]] + r[1..] == record + r;
    }
  }

  /** A record standing alone on its line. */
  lemma LineReads(r: Record, rest: string, table: seq<Record>, lastBreak: bool)
    requires rest == "" || AtBreak(rest)
    ensures Read(PrintRecord(r) + rest, Start, "", [], table, lastBreak) ==
            if lastBreak && Legible(r) == [""] && rest == "" && table != [] then Some(table)
            else if rest == "" then Some(table + [Legible(r)])
            else Read(rest[2..], Start, "", [], table + [Legible(r)], lastBreak)
  {
    assert PrintRecord(r) == PrintRecord(Legible(r));
    RecordReads(Legible(r), rest, [], table, lastBreak);
    assert [] + Legible(r) == Legible(r);
  }

  lemma {:induction false} TableReads(rows: seq<Record>, table: seq<Record>, lastBreak: bool)
    requires rows != []
    ensures var read := AllLegible(rows);
            Read(PrintTable(rows), Start, "", [], table, lastBreak) ==
            if lastBreak && read[|rows| - 1] == [""] && |table + rows| > 1 then Some(table + read[..|rows| - 1])
            else Some(table + read)
    decreases |rows|
  {
    var read := AllLegible(rows);
    if |rows| == 1 {
      assert PrintRecord(rows[0]) + "" == PrintRecord(rows[0]);
      LineReads(rows[0], "", table, lastBreak);
      assert read == [Legible(rows[0])] && table + read[..0] == table;
    } else {
      var tail := "\r\n" + PrintTable(rows[1..]);
      assert PrintTable(rows) == PrintRecord(rows[0]) + tail;
      LineReads(rows[0], tail, table, lastBreak);
      assert tail[2..] == PrintTable(rows[1..]);
      TableReads(rows[1..], table + [read[0]], lastBreak);
      assert AllLegible(rows[1..]) == read[1..];
      assert table + [read[0]] + read[1..] == table + read;
      assert table + [read[0]] + read[1..][..|rows| - 2] == table + read[..|rows| - 1];
    }
  }

  lemma LegibleIff(table: seq<Record>)
    ensures AllLegible(table) == table <==> [] !in table
  {
  }

  /**
   * Reading undoes printing, for arbitrary field texts, when a line break always separates two
   * records: exactly for the tables whose records all have a field.
   */
  lemma CsvRoundTripIff(headers: Record, rows: seq<Record>)
    ensures ReadCsv(ToCsv(headers, rows), false) == Some([headers] + rows) <==> [] !in [headers] + rows
  {
    TableReads([headers] + rows, [], false);
    LegibleIff([headers] + rows);
    assert [] + AllLegible([headers] + rows) == AllLegible([headers] + rows);
  }

  /**
   * A reader that takes a final line break as the end of the last record recovers such a table exactly
   * when the last of several records is not a single empty field.
   */
  lemma CsvRoundTripWithLastBreakIff(headers: Record, rows: seq<Record>)
    ensures ReadCsv(ToCsv(headers, rows), true) == Some([headers] + rows) <==>
            [] !in [headers] + rows && (rows == [] || rows[|rows| - 1] != [""])
  {
    var table := [headers] + rows;
    TableReads(table, [], true);
    LegibleIff(table);
    assert [] + AllLegible(table) == AllLegible(table) && |[] + AllLegible(table)[..|table| - 1]| < |table|;
    assert table[|table| - 1] == if rows == [] then headers else rows[|rows| - 1];
  }
}
