/** Tables printed as comma-separated text, and a reader after section 2 of RFC 4180 (items 2 and 5
    to 7), with a line feed between records. */
module Csv {
  type Record = seq<string>

  // ----- Printing -----

  predicate Special(c: char) { c == ',' || c == '"' || c == '\n' || c == '\r' }

  predicate NeedsQuotes(s: string) { exists k :: 0 <= k < |s| && Special(s[k]) }

  /** Inside quotes, a quote is written twice. */
  function Quote(c: char): string { if c == '"' then ['"', '"'] else [c] }

  function Doubled(s: string): string {
    if |s| == 0 then "" else Quote(s[0]) + Doubled(s[1..])
  }

  function Escape(s: string): string {
    if NeedsQuotes(s) then "\"" + Doubled(s) + "\"" else s
  }

  function Join(parts: seq<string>, separator: char): string {
    if |parts| == 0 then ""
    else if |parts| == 1 then parts[0]
    else parts[0] + [separator] + Join(parts[1..], separator)
  }

  /** The value under a heading; a missing one prints as nothing. */
  function Cell(row: map<string, string>, heading: string): string {
    if heading in row then row[heading] else ""
  }

  function Cells(row: map<string, string>, headings: seq<string>): Record {
    seq(|headings|, k requires 0 <= k < |headings| => Cell(row, headings[k]))
  }

  function Escaped(r: Record): Record { seq(|r|, k requires 0 <= k < |r| => Escape(r[k])) }

  function Line(r: Record): string { Join(Escaped(r), ',') }

  /** Headings are printed as they are; only the values are escaped. */
  function Lines(headings: seq<string>, rows: seq<map<string, string>>): seq<string> {
    [Join(headings, ',')] + seq(|rows|, k requires 0 <= k < |rows| => Line(Cells(rows[k], headings)))
  }

  method ToCsv(headings: seq<string>, rows: seq<map<string, string>>) returns (text: string)
    ensures text == if |rows| == 0 then "" else Join(Lines(headings, rows), '\n')
  {
    if |rows| == 0 { return ""; }
    var lines := [Join(headings, ',')];
    var k := 0;
    while k < |rows|
      invariant 0 <= k <= |rows| && |lines| == k + 1
      invariant lines == Lines(headings, rows)[..k + 1]
    {
      lines := lines + [Line(Cells(rows[k], headings))];
      k := k + 1;
    }
    assert lines == Lines(headings, rows);
    text := Join(lines, '\n');
  }

  // ----- Reading -----

  /** At the start of a field, inside a plain one, inside quotes, or just after a quote inside quotes. */
  datatype Mode = Start | Plain | Quoted | AfterQuote

  /** What has been read: whole records, the fields of the current one, the current field. */
  datatype Read = Read(records: seq<Record>, fields: Record, field: string)

  function EndField(r: Read): Read { Read(r.records, r.fields + [r.field], "") }

  function EndRecord(r: Read): Read { Read(r.records + [r.fields + [r.field]], [], "") }

  function Extend(r: Read, c: char): Read { r.(field := r.field + [c]) }

  function Parse(s: string, mode: Mode, r: Read): seq<Record> {
    if |s| == 0 then
      // The last record may or may not end in a line break.
      if mode.Start? && r.fields == [] && r.field == "" then r.records else EndRecord(r).records
    else
      var c, rest := s[0], s[1..];
      match mode
      case Quoted => if c == '"' then Parse(rest, AfterQuote, r) else Parse(rest, Quoted, Extend(r, c))
      case AfterQuote =>
        if c == '"' then Parse(rest, Quoted, Extend(r, '"'))
        else if c == ',' then Parse(rest, Start, EndField(r))
        else if c == '\n' then Parse(rest, Start, EndRecord(r))
        else Parse(rest, Plain, Extend(r, c))
      case _ =>
        if c == '"' && mode.Start? then Parse(rest, Quoted, r)
        else if c == ',' then Parse(rest, Start, EndField(r))
        else if c == '\n' then Parse(rest, Start, EndRecord(r))
        else Parse(rest, Plain, Extend(r, c))
  }

  function ReadAll(s: string): seq<Record> { Parse(s, Start, Read([], [], "")) }

  // ----- One field -----

  /** Text that can follow a field: nothing, or a separator. */
  predicate Ends(rest: string) { |rest| == 0 || rest[0] == ',' || rest[0] == '\n' }

  /** Reading on after a field that has been read in full. */
  function After(rest: string, r: Read): seq<Record>
    requires Ends(rest)
  {
    if |rest| == 0 then EndRecord(r).records
    else if rest[0] == ',' then Parse(rest[1..], Start, EndField(r))
    else Parse(rest[1..], Start, EndRecord(r))
  }

  lemma Tail(c: char, s: string)
    ensures ([c] + s)[0] == c && ([c] + s)[1..] == s
  {
  }

  lemma ReadQuotedChar(c: char, tail: string, r: Read)
    ensures Parse(Quote(c) + tail, Quoted, r) == Parse(tail, Quoted, Extend(r, c))
  {
    Tail(c, tail);
    if c == '"' {
      assert Quote(c) + tail == ['"'] + (['"'] + tail);
      Tail('"', ['"'] + tail);
    }
  }

  lemma ReadClosingQuote(rest: string, r: Read)
    requires Ends(rest)
    ensures Parse("\"" + rest, Quoted, r) == After(rest, r)
  {
    Tail('"', rest);
  }

  lemma {:induction false} ReadQuoted(g: string, rest: string, r: Read)
    requires Ends(rest)
    ensures Parse(Doubled(g) + "\"" + rest, Quoted, r) == After(rest, r.(field := r.field + g))
    decreases |g|
  {
    hide Parse, After;
    if |g| == 0 {
      ReadClosingQuote(rest, r);
      assert Doubled(g) + "\"" + rest == "\"" + rest;
      assert r.field + g == r.field;
    } else {
      var tail := Doubled(g[1..]) + "\"" + rest;
      assert Doubled(g) + "\"" + rest == Quote(g[0]) + tail;
      ReadQuotedChar(g[0], tail, r);
      ReadQuoted(g[1..], rest, Extend(r, g[0]));
      assert r.field + g == r.field + [g[0]] + g[1..];
    }
  }

  /** Text that reads back as itself even when it is not quoted. */
  predicate ReadsRaw(s: string) {
    (forall k :: 0 <= k < |s| ==> s[k] != ',' && s[k] != '\n') && (|s| > 0 ==> s[0] != '"')
  }

  lemma {:induction false} ReadPlain(g: string, rest: string, mode: Mode, r: Read)
    requires Ends(rest) && (forall k :: 0 <= k < |g| ==> g[k] != ',' && g[k] != '\n')
    requires mode.Start? ==> ReadsRaw(g)
    requires (mode.Plain? || (mode.Start? && (|g| > 0 || |rest| > 0 || r.fields != [] || r.field != "")))
    ensures Parse(g + rest, mode, r) == After(rest, r.(field := r.field + g))
    decreases |g|
  {
    if |g| == 0 {
      assert g + rest == rest;
      assert r.field + g == r.field;
    } else {
      assert (g + rest)[1..] == g[1..] + rest;
      assert r.field + g == r.field + [g[0]] + g[1..];
      ReadPlain(g[1..], rest, Plain, Extend(r, g[0]));
    }
  }

  lemma ReadOpenQuote(g: string, rest: string, r: Read)
    requires Ends(rest) && NeedsQuotes(g)
    ensures Parse(Escape(g) + rest, Start, r) == After(rest, r.(field := r.field + g))
  {
    var quoted := Doubled(g) + "\"" + rest;
    assert Escape(g) + rest == "\"" + quoted;
    assert ("\"" + quoted)[1..] == quoted;
    ReadQuoted(g, rest, r);
  }

  /** How a field may be printed: escaped, whatever it contains, or as it is if that reads back. */
  predicate PrintedAs(p: string, g: string) { p == Escape(g) || (p == g && ReadsRaw(g)) }

  lemma ReadPrinted(p: string, g: string, rest: string, r: Read)
    requires PrintedAs(p, g) && Ends(rest) && r.field == "" && (|g| > 0 || |rest| > 0 || r.fields != [])
    ensures Parse(p + rest, Start, r) == After(rest, r.(field := g))
  {
    assert r.field + g == g;
    if p == Escape(g) && NeedsQuotes(g) { ReadOpenQuote(g, rest, r); } else {
      forall k | 0 <= k < |g| && !NeedsQuotes(g) ensures !Special(g[k]) { }
      ReadPlain(g, rest, Start, r);
    }
  }

  // ----- One record -----

  /** Fields that read back as the given ones when printed side by side. */
  ghost predicate Prints(printed: seq<string>, fields: Record) {
    |printed| == |fields| && forall k :: 0 <= k < |fields| ==> PrintedAs(printed[k], fields[k])
  }

  lemma JoinFirst(parts: seq<string>, separator: char, rest: string)
    requires |parts| > 1
    ensures Join(parts, separator) + rest == parts[0] + ([separator] + (Join(parts[1..], separator) + rest))
  {
  }

  lemma ReadFieldAndComma(p: string, g: string, tail: string, r: Read)
    requires PrintedAs(p, g) && r.field == ""
    ensures Parse(p + ("," + tail), Start, r) == Parse(tail, Start, Read(r.records, r.fields + [g], ""))
  {
    ReadPrinted(p, g, "," + tail, r);
    assert ("," + tail)[1..] == tail;
  }

  lemma {:induction false} ReadRecord(printed: seq<string>, fields: Record, rest: string, r: Read)
    requires Prints(printed, fields) && |fields| > 0 && r.field == ""
    requires |rest| == 0 || rest[0] == '\n'
    requires |rest| > 0 || |fields| > 1 || |fields[0]| > 0 || r.fields != []
    ensures Parse(Join(printed, ',') + rest, Start, r)
            == After(rest, Read(r.records, r.fields + fields[..|fields| - 1], fields[|fields| - 1]))
    decreases |fields|, 1
  {
    if |fields| == 1 {
      ReadPrinted(printed[0], fields[0], rest, r);
      assert r.fields + fields[..0] == r.fields;
    } else {
      RecordStep(printed, fields, rest, r);
    }
  }

  lemma FieldsShift(before: Record, fields: Record)
    requires |fields| > 1
    ensures before + [fields[0]] + fields[1..][..|fields| - 2] == before + fields[..|fields| - 1]
    ensures fields[1..][|fields| - 2] == fields[|fields| - 1]
  {
    assert [fields[0]] + fields[1..][..|fields| - 2] == fields[..|fields| - 1];
  }

  lemma {:induction false} RecordStep(printed: seq<string>, fields: Record, rest: string, r: Read)
    requires Prints(printed, fields) && |fields| > 1 && r.field == ""
    requires |rest| == 0 || rest[0] == '\n'
    ensures Parse(Join(printed, ',') + rest, Start, r)
            == After(rest, Read(r.records, r.fields + fields[..|fields| - 1], fields[|fields| - 1]))
    decreases |fields|, 0
  {
    hide Parse, After, Join;
    var tail := Join(printed[1..], ',') + rest;
    JoinFirst(printed, ',', rest);
    ReadFieldAndComma(printed[0], fields[0], tail, r);
    ReadRecord(printed[1..], fields[1..], rest, Read(r.records, r.fields + [fields[0]], ""));
    FieldsShift(r.fields, fields);
  }

  // ----- The whole table -----

  ghost predicate PrintsAll(lines: seq<string>, records: seq<Record>) {
    |lines| == |records| && forall k :: 0 <= k < |records| ==> PrintsLine(lines[k], records[k])
  }

  ghost predicate PrintsLine(line: string, r: Record) {
    |r| > 0 && exists printed :: Prints(printed, r) && line == Join(printed, ',')
  }

  /** A record of one empty field: as the last line it looks like a closing line break. */
  predicate LooksEmpty(r: Record) { r == [""] }

  lemma ReadLineAndBreak(printed: seq<string>, r: Record, tail: string, done: seq<Record>)
    requires Prints(printed, r) && |r| > 0
    ensures Parse(Join(printed, ',') + ("\n" + tail), Start, Read(done, [], ""))
            == Parse(tail, Start, Read(done + [r], [], ""))
  {
    ReadRecord(printed, r, "\n" + tail, Read(done, [], ""));
    assert ("\n" + tail)[1..] == tail;
    assert [] + r[..|r| - 1] + [r[|r| - 1]] == r;
  }

  lemma ReadNothing(done: seq<Record>)
    ensures Parse("", Start, Read(done, [], "")) == done
  {
  }

  lemma ReadFullLine(printed: seq<string>, r: Record, done: seq<Record>)
    requires Prints(printed, r) && (|r| > 1 || (|r| == 1 && |r[0]| > 0))
    ensures Parse(Join(printed, ','), Start, Read(done, [], "")) == done + [r]
  {
    hide Parse, Join, Prints;
    assert Join(printed, ',') + "" == Join(printed, ',');
    ReadRecord(printed, r, "", Read(done, [], ""));
    assert [] + r[..|r| - 1] + [r[|r| - 1]] == r;
  }

  lemma ReadLastLine(printed: seq<string>, r: Record, done: seq<Record>)
    requires Prints(printed, r) && |r| > 0
    ensures Parse(Join(printed, ','), Start, Read(done, [], "")) == done + if LooksEmpty(r) then [] else [r]
  {
    hide Parse;
    if LooksEmpty(r) {
      assert printed[0] == "" && printed == [""];
      ReadNothing(done);
    } else {
      if |r| == 1 { assert r == [r[0]]; }
      ReadFullLine(printed, r, done);
    }
  }

  lemma {:induction false} ReadLines(lines: seq<string>, records: seq<Record>, done: seq<Record>)
    requires PrintsAll(lines, records) && |records| > 0
    ensures Parse(Join(lines, '\n'), Start, Read(done, [], ""))
         == done + Readable(records)
    decreases |records|, 1
  {
    var first, n := records[0], |records| - 1;
    assert PrintsLine(lines[0], first);
    var printed :| Prints(printed, first) && lines[0] == Join(printed, ',');
    if n == 0 {
      ReadLastLine(printed, first, done);
      assert records == [first] && records[..0] == [];
    } else {
      LinesStep(printed, lines, records, done);
    }
  }

  /** All but a last record that looks empty. */
  function Readable(records: seq<Record>): seq<Record>
    requires |records| > 0
  {
    if LooksEmpty(records[|records| - 1]) then records[..|records| - 1] else records
  }

  lemma ReadableRest(records: seq<Record>, done: seq<Record>)
    requires |records| > 1
    ensures done + [records[0]] + Readable(records[1..]) == done + Readable(records)
  {
    var n := |records| - 1;
    assert [records[0]] + records[1..][..n - 1] == records[..n];
    assert [records[0]] + records[1..] == records;
  }

  lemma {:induction false} LinesStep(printed: seq<string>, lines: seq<string>, records: seq<Record>, done: seq<Record>)
    requires PrintsAll(lines, records) && |records| > 1
    requires Prints(printed, records[0]) && |records[0]| > 0 && lines[0] == Join(printed, ',')
    ensures Parse(Join(lines, '\n'), Start, Read(done, [], "")) == done + Readable(records)
    decreases |records|, 0
  {
    hide Parse, Join;
    var tail := Join(lines[1..], '\n');
    JoinFirst(lines, '\n', "");
    assert Join(lines, '\n') + "" == Join(lines, '\n') && tail + "" == tail;
    ReadLineAndBreak(printed, records[0], tail, done);
    forall k | 0 <= k < |records| - 1
      ensures PrintsLine(lines[1..][k], records[1..][k])
    {
      assert PrintsLine(lines[k + 1], records[k + 1]);
    }
    ReadLines(lines[1..], records[1..], done + [records[0]]);
    ReadableRest(records, done);
  }

  /** The records a table stands for: its headings, then each row's values under them. */
  function Records(headings: seq<string>, rows: seq<map<string, string>>): seq<Record> {
    [headings] + seq(|rows|, k requires 0 <= k < |rows| => Cells(rows[k], headings))
  }

  /** Headings are printed raw: without commas and line feeds, and not beginning with a quote, they
      read back as they are. */
  predicate RawHeadings(headings: seq<string>) { forall k :: 0 <= k < |headings| ==> ReadsRaw(headings[k]) }

  /** Reading the printed table gives every value of every row back exactly, commas, quotes and line
      breaks included, unless the table has a single column and its last value is empty. */
  lemma RoundTrip(headings: seq<string>, rows: seq<map<string, string>>)
    requires |headings| > 0 && |rows| > 0 && RawHeadings(headings)
    ensures ReadAll(Join(Lines(headings, rows), '\n')) == Records(headings, rows)
            <==> !(|headings| == 1 && Cell(rows[|rows| - 1], headings[0]) == "")
  {
    var records := Records(headings, rows);
    TableReads(headings, rows);
    var last := Cells(rows[|rows| - 1], headings);
    assert records[|records| - 1] == last;
    if |headings| == 1 { assert last == [last[0]]; }
  }

  lemma TableReads(headings: seq<string>, rows: seq<map<string, string>>)
    requires |headings| > 0 && RawHeadings(headings)
    ensures ReadAll(Join(Lines(headings, rows), '\n')) == Readable(Records(headings, rows))
  {
    hide Join;
    TablePrints(headings, rows);
    ReadLines(Lines(headings, rows), Records(headings, rows), []);
    assert [] + Readable(Records(headings, rows)) == Readable(Records(headings, rows));
  }

  lemma TablePrints(headings: seq<string>, rows: seq<map<string, string>>)
    requires |headings| > 0 && RawHeadings(headings)
    ensures PrintsAll(Lines(headings, rows), Records(headings, rows))
  {
    var lines, records := Lines(headings, rows), Records(headings, rows);
    forall k | 0 <= k < |records| ensures PrintsLine(lines[k], records[k]) {
      if k == 0 {
        assert Prints(headings, headings);
      } else {
        assert records[k] == Cells(rows[k - 1], headings) && lines[k] == Line(records[k]);
        assert Prints(Escaped(records[k]), records[k]);
      }
    }
  }

  /** Only the values are escaped: a heading with a comma, which no export has, would be read as two. */
  lemma HeadingsAreNotEscaped()
    ensures ReadAll(Join(Lines(["a,b"], [map["a,b" := "1"]]), '\n')) == [["a", "b"], ["1"]]
  {
    var lines := Lines(["a,b"], [map["a,b" := "1"]]);
    assert Line(Cells(map["a,b" := "1"], ["a,b"])) == "1" by { assert !NeedsQuotes("1"); }
    assert lines == ["a,b", "1"];
    var printed := Escaped(["a", "b"]);
    assert !NeedsQuotes("a") && !NeedsQuotes("b");
    assert printed == ["a", "b"];
    assert Join(printed, ',') == "a,b" by { assert printed[1..] == ["b"]; }
    assert PrintsLine(lines[0], ["a", "b"]) by { assert Prints(printed, ["a", "b"]); }
    assert PrintsLine(lines[1], ["1"]) by { assert !NeedsQuotes("1"); assert Prints(["1"], ["1"]); }
    ReadLines(lines, [["a", "b"], ["1"]], []);
  }
}
