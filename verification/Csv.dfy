/** The exporter's CSV text (packages/domain/src/candidates/candidate-export.ts:85-103) and the importer's parser
    (packages/domain/src/legacy/legacy-import.ts:268-298), after section 2 of RFC 4180. */
module Csv {
  import opened Basics

  /** A string is a sequence of UTF-16 code units, as the program sees it. */
  type CodeUnit = u: int | 0 <= u < 0x1_0000

  type Text = seq<CodeUnit>

  const TAB: CodeUnit := 9
  const LF: CodeUnit := 10
  const CR: CodeUnit := 13
  const QUOTE: CodeUnit := 34
  const APOSTROPHE: CodeUnit := 39
  const PLUS: CodeUnit := 43
  const COMMA: CodeUnit := 44
  const MINUS: CodeUnit := 45
  const EQUALS: CodeUnit := 61
  const AT: CodeUnit := 64
  const BOM: CodeUnit := 0xFEFF

  // ---------------------------------------------------------------- writing

  predicate StartsFormula(text: Text) {
    text != [] && text[0] in {EQUALS, PLUS, MINUS, AT, TAB, CR}
  }

  /** What a spreadsheet could take for a formula is defused by an apostrophe; a missing value is empty. */
  function Sanitised(value: Option<Text>): Text {
    var text := if value.None? then [] else value.value;
    if StartsFormula(text) then [APOSTROPHE] + text else text
  }

  function DoubleQuotes(text: Text): Text {
    if text == [] then []
    else (if text[0] == QUOTE then [QUOTE, QUOTE] else [text[0]]) + DoubleQuotes(text[1..])
  }

  function ToCsvCell(value: Option<Text>): Text {
    [QUOTE] + DoubleQuotes(Sanitised(value)) + [QUOTE]
  }

  function Line(record: seq<Option<Text>>): Text {
    if record == [] then []
    else if |record| == 1 then ToCsvCell(record[0])
    else ToCsvCell(record[0]) + [COMMA] + Line(record[1..])
  }

  function Lines(table: seq<seq<Option<Text>>>): Text {
    if table == [] then [] else Line(table[0]) + [CR, LF] + Lines(table[1..])
  }

  /** The byte order mark, then the lines, the last one ended like the others. */
  function Export(table: seq<seq<Option<Text>>>): Text {
    [BOM] + Lines(table)
  }

  /** It begins with an equals, plus, minus or at sign, a tab or a carriage return. */
  ghost predicate LooksLikeFormula(text: Text) {
    text != [] &&
    (text[0] == 61 || text[0] == 43 || text[0] == 45 || text[0] == 64 || text[0] == 9 || text[0] == 13)
  }

  /** A cell between double quotes, with those inside doubled and an apostrophe before what looks like a formula. */
  ghost function QuotedText(value: Option<Text>): Text {
    var text := if value.None? then [] else value.value;
    [34] + Doubled(if LooksLikeFormula(text) then [39] + text else text) + [34]
  }

  ghost function Doubled(text: Text): Text {
    if text == [] then [] else (if text[0] == 34 then [34, 34] else [text[0]]) + Doubled(text[1..])
  }

  /** Cells with commas between them. */
  ghost function RecordText(record: seq<Option<Text>>): Text {
    if record == [] then []
    else QuotedText(record[0]) + if |record| == 1 then [] else [44] + RecordText(record[1..])
  }

  /** Records each ended by a carriage return and a line feed. */
  ghost function TableText(table: seq<seq<Option<Text>>>): Text {
    if table == [] then [] else RecordText(table[0]) + [13, 10] + TableText(table[1..])
  }

  lemma {:induction false} DoubledByNumbers(text: Text)
    ensures DoubleQuotes(text) == Doubled(text)
  {
    if text != [] {
      DoubledByNumbers(text[1..]);
    }
  }

  lemma CellByNumbers(value: Option<Text>)
    ensures ToCsvCell(value) == QuotedText(value)
  {
    DoubledByNumbers(Sanitised(value));
  }

  lemma {:induction false} RecordByNumbers(record: seq<Option<Text>>)
    ensures Line(record) == RecordText(record)
  {
    if record != [] {
      CellByNumbers(record[0]);
      RecordByNumbers(record[1..]);
      var rest := RecordText(record[1..]);
      assert ToCsvCell(record[0]) + [COMMA] + Line(record[1..]) == QuotedText(record[0]) + ([44] + rest);
    }
  }

  lemma {:induction false} LinesByNumbers(table: seq<seq<Option<Text>>>)
    ensures Lines(table) == TableText(table)
  {
    if table != [] {
      RecordByNumbers(table[0]);
      LinesByNumbers(table[1..]);
    }
  }

  /** The exported text, code unit by code unit: the byte order mark, then the records. */
  lemma ExportByNumbers(table: seq<seq<Option<Text>>>)
    ensures Export(table) == [0xFEFF] + TableText(table)
  {
    LinesByNumbers(table);
  }

  // ---------------------------------------------------------------- reading

  datatype Parser = Parser(rows: seq<seq<Text>>, row: seq<Text>, field: Text, quoted: bool)

  const START := Parser([], [], [], false)

  predicate HasText(row: seq<Text>) {
    exists i :: 0 <= i < |row| && row[i] != []
  }

  function EndField(p: Parser): Parser {
    p.(row := p.row + [p.field], field := [])
  }

  /** Rows without any text are dropped. */
  function AddRow(p: Parser, row: seq<Text>): Parser {
    Parser(if HasText(row) then p.rows + [row] else p.rows, [], [], p.quoted)
  }

  function EndRow(p: Parser): Parser {
    AddRow(p, p.row + [p.field])
  }

  function Scan(contents: Text, p: Parser): Parser
    decreases |contents|
  {
    if contents == [] then p
    else
      var c, more := contents[0], contents[1..];
      if c == QUOTE then
        if p.quoted && more != [] && more[0] == QUOTE then Scan(more[1..], p.(field := p.field + [QUOTE]))
        else Scan(more, p.(quoted := !p.quoted))
      else if c == COMMA && !p.quoted then Scan(more, EndField(p))
      else if (c == LF || c == CR) && !p.quoted then
        Scan(if c == CR && more != [] && more[0] == LF then more[1..] else more, EndRow(p))
      else Scan(more, p.(field := p.field + [c]))
  }

  function Parsed(contents: Text): seq<seq<Text>> {
    EndRow(Scan(contents, START)).rows
  }

  /** The character loop. */
  method CsvRows(contents: Text) returns (rows: seq<seq<Text>>)
    ensures rows == Parsed(contents)
  {
    rows := [];
    var row: seq<Text> := [];
    var field: Text := [];
    var quoted := false;
    var index := 0;
    while index < |contents|
      invariant 0 <= index <= |contents|
      invariant Scan(contents[index..], Parser(rows, row, field, quoted)) == Scan(contents, START)
    {
      var character := contents[index];
      assert contents[index..][1..] == contents[index + 1..];
      assert index + 1 < |contents| ==> contents[index..][1..][1..] == contents[index + 2..];
      if character == QUOTE {
        if quoted && index + 1 < |contents| && contents[index + 1] == QUOTE {
          field := field + [QUOTE];
          index := index + 1;
        } else {
          quoted := !quoted;
        }
      } else if character == COMMA && !quoted {
        row := row + [field];
        field := [];
      } else if (character == LF || character == CR) && !quoted {
        if character == CR && index + 1 < |contents| && contents[index + 1] == LF {
          index := index + 1;
        }
        row := row + [field];
        if HasText(row) {
          rows := rows + [row];
        }
        row := [];
        field := [];
      } else {
        field := field + [character];
      }
      index := index + 1;
    }
    assert contents[index..] == [];
    row := row + [field];
    if HasText(row) {
      rows := rows + [row];
    }
  }

  // ---------------------------------------------------------------- reading what was written

  predicate NoQuoteFirst(rest: Text) {
    rest == [] || rest[0] != QUOTE
  }

  lemma ScanInside(c: CodeUnit, more: Text, p: Parser)
    requires p.quoted && c != QUOTE
    ensures Scan([c] + more, p) == Scan(more, p.(field := p.field + [c]))
  {
    assert ([c] + more)[1..] == more;
  }

  lemma ScanDoubled(more: Text, p: Parser)
    requires p.quoted
    ensures Scan([QUOTE, QUOTE] + more, p) == Scan(more, p.(field := p.field + [QUOTE]))
  {
    assert ([QUOTE, QUOTE] + more)[1..] == [QUOTE] + more;
    assert ([QUOTE] + more)[1..] == more;
  }

  lemma ScanClosing(more: Text, p: Parser)
    requires p.quoted ==> NoQuoteFirst(more)
    ensures Scan([QUOTE] + more, p) == Scan(more, p.(quoted := !p.quoted))
  {
    assert ([QUOTE] + more)[1..] == more;
  }

  lemma ScanComma(more: Text, p: Parser)
    requires !p.quoted
    ensures Scan([COMMA] + more, p) == Scan(more, EndField(p))
  {
    assert ([COMMA] + more)[1..] == more;
  }

  lemma ScanLineEnd(more: Text, p: Parser)
    requires !p.quoted
    ensures Scan([CR, LF] + more, p) == Scan(more, EndRow(p))
  {
    assert ([CR, LF] + more)[1..] == [LF] + more;
    assert ([LF] + more)[1..] == more;
  }

  /** The quoted form of a text, its closing quote and what follows, cut after the first character. */
  lemma QuotedTail(text: Text, rest: Text)
    requires text != []
    ensures DoubleQuotes(text) + ([QUOTE] + rest) ==
            (if text[0] == QUOTE then [QUOTE, QUOTE] else [text[0]]) + (DoubleQuotes(text[1..]) + ([QUOTE] + rest))
  {
  }

  /** Inside quotes the doubled text is read back as the text, whatever it contains. */
  lemma {:induction false} ScanQuoted(text: Text, rest: Text, p: Parser)
    requires p.quoted && NoQuoteFirst(rest)
    ensures Scan(DoubleQuotes(text) + ([QUOTE] + rest), p) ==
            Scan(rest, Parser(p.rows, p.row, p.field + text, false))
  {
    if text == [] {
      assert DoubleQuotes(text) + ([QUOTE] + rest) == [QUOTE] + rest;
      assert p.field + text == p.field;
      ScanClosing(rest, p);
    } else {
      var q := Parser(p.rows, p.row, p.field + [text[0]], true);
      ScanQuoted(text[1..], rest, q);
      assert q.field + text[1..] == p.field + text;
      QuotedTail(text, rest);
      ScanOne(text[0], DoubleQuotes(text[1..]) + ([QUOTE] + rest), p);
    }
  }

  lemma ScanOne(c: CodeUnit, more: Text, p: Parser)
    requires p.quoted
    ensures Scan((if c == QUOTE then [QUOTE, QUOTE] else [c]) + more, p) ==
            Scan(more, Parser(p.rows, p.row, p.field + [c], true))
  {
    if c == QUOTE {
      ScanDoubled(more, p);
    } else {
      ScanInside(c, more, p);
    }
  }

  lemma CellText(value: Option<Text>, rest: Text)
    ensures ToCsvCell(value) + rest == [QUOTE] + (DoubleQuotes(Sanitised(value)) + ([QUOTE] + rest))
  {
  }

  lemma ScanCell(value: Option<Text>, rest: Text, p: Parser)
    requires !p.quoted && NoQuoteFirst(rest)
    ensures Scan(ToCsvCell(value) + rest, p) == Scan(rest, p.(field := p.field + Sanitised(value)))
  {
    CellText(value, rest);
    ScanOpening(DoubleQuotes(Sanitised(value)) + ([QUOTE] + rest), p);
    ScanQuoted(Sanitised(value), rest, p.(quoted := true));
  }

  lemma ScanOpening(more: Text, p: Parser)
    requires !p.quoted
    ensures Scan([QUOTE] + more, p) == Scan(more, p.(quoted := true))
  {
    ScanClosing(more, p);
  }

  function SanitisedRow(record: seq<Option<Text>>): seq<Text> {
    seq(|record|, i requires 0 <= i < |record| => Sanitised(record[i]))
  }

  /** The fields one line is read as: a line without cells still has one empty field. */
  function Fields(prefix: Text, record: seq<Option<Text>>): seq<Text> {
    if record == [] then [prefix] else [prefix + Sanitised(record[0])] + SanitisedRow(record[1..])
  }

  lemma {:induction false} ScanLine(record: seq<Option<Text>>, rest: Text, p: Parser)
    requires !p.quoted
    ensures Scan(Line(record) + ([CR, LF] + rest), p) == Scan(rest, AddRow(p, p.row + Fields(p.field, record)))
  {
    var end := [CR, LF] + rest;
    if record == [] {
      assert Line(record) + end == end;
      ScanLineEnd(rest, p);
    } else {
      var q := p.(field := p.field + Sanitised(record[0]));
      if |record| == 1 {
        assert Line(record) + end == ToCsvCell(record[0]) + end;
        ScanCell(record[0], end, p);
        ScanLineEnd(rest, q);
        assert Fields(p.field, record) == [q.field];
      } else {
        var tail := Line(record[1..]) + end;
        assert Line(record) + end == ToCsvCell(record[0]) + ([COMMA] + tail);
        ScanCell(record[0], [COMMA] + tail, p);
        ScanComma(tail, q);
        ScanLine(record[1..], rest, EndField(q));
        FieldsOfRest(p, record);
      }
    }
  }

  lemma FieldsOfRest(p: Parser, record: seq<Option<Text>>)
    requires |record| > 1
    ensures p.row + Fields(p.field, record) ==
            p.row + [p.field + Sanitised(record[0])] + Fields([], record[1..])
  {
    var later := Fields([], record[1..]);
    assert [] + Sanitised(record[1]) == Sanitised(record[1]);
    assert SanitisedRow(record[1..]) == later;
  }

  /** What each record reads back as, `prefix` standing in front of the first cell of the first one. */
  function ReadBack(prefix: Text, table: seq<seq<Option<Text>>>): (rows: seq<seq<Text>>)
    ensures |rows| == |table|
    decreases |table|
  {
    if table == [] then [] else [Fields(prefix, table[0])] + ReadBack([], table[1..])
  }

  /** The rows a table reads back as, without those that have no text. */
  function KeptRows(prefix: Text, table: seq<seq<Option<Text>>>): seq<seq<Text>> {
    Filter(HasText, ReadBack(prefix, table))
  }

  lemma KeptRowsOfRest(rows: seq<seq<Text>>, prefix: Text, table: seq<seq<Option<Text>>>)
    requires table != []
    ensures var fields := Fields(prefix, table[0]);
            rows + KeptRows(prefix, table) ==
            (if HasText(fields) then rows + [fields] else rows) + KeptRows([], table[1..])
  {
    var fields, rest := Fields(prefix, table[0]), ReadBack([], table[1..]);
    FilterHead(fields, rest);
    ConcatAssociates(rows, [fields], KeptRows([], table[1..]));
  }

  lemma FilterHead(row: seq<Text>, rest: seq<seq<Text>>)
    ensures Filter(HasText, [row] + rest) == if HasText(row) then [row] + Filter(HasText, rest) else Filter(HasText, rest)
  {
    FilterAppend(HasText, [row], rest);
    FilterOne(HasText, [], row);
    assert [] + [row] == [row];
    assert [] + Filter(HasText, rest) == Filter(HasText, rest);
  }

  lemma {:induction false} ScanLines(table: seq<seq<Option<Text>>>, p: Parser)
    requires !p.quoted && p.row == [] && (table == [] ==> p.field == [])
    ensures Scan(Lines(table), p) == Parser(p.rows + KeptRows(p.field, table), [], [], false)
    decreases |table|
  {
    if table == [] {
      assert p.rows + [] == p.rows;
    } else {
      var fields := Fields(p.field, table[0]);
      LinesOfRest(table);
      ScanLine(table[0], Lines(table[1..]), p);
      assert p.row + fields == fields;
      ScanLines(table[1..], AddRow(p, fields));
      KeptRowsOfRest(p.rows, p.field, table);
    }
  }

  lemma LinesOfRest(table: seq<seq<Option<Text>>>)
    requires table != []
    ensures Lines(table) == Line(table[0]) + ([CR, LF] + Lines(table[1..]))
  {
  }

  /** The parser applied to the exporter's text gives back, record by record, exactly the sanitised cells, whatever
      quotes, commas and line ends they contain; the byte order mark ends up in front of the first cell, and records
      with no text at all are dropped. */
  lemma RoundTrip(table: seq<seq<Option<Text>>>)
    requires table != []
    ensures Parsed(Export(table)) == Filter(HasText, ReadBack([BOM], table))
  {
    var p := START.(field := [BOM]);
    assert Export(table)[1..] == Lines(table);
    assert [] + [BOM] == [BOM];
    assert Scan(Export(table), START) == Scan(Lines(table), p);
    ScanLines(table, p);
    assert !HasText([] + [[]]);
  }

  lemma {:induction false} ReadBackAt(prefix: Text, table: seq<seq<Option<Text>>>, i: nat)
    requires i < |table|
    decreases |table|
    ensures ReadBack(prefix, table)[i] == Fields(if i == 0 then prefix else [], table[i])
  {
    if |table| > 1 {
      ReadBackAt([], table[1..], if i == 0 then 0 else i - 1);
    }
  }

  predicate HasContent(record: seq<Option<Text>>) {
    exists i :: 0 <= i < |record| && record[i].Some? && record[i].value != []
  }

  lemma FieldsAre(record: seq<Option<Text>>)
    requires record != []
    ensures |Fields([], record)| == |record|
    ensures forall i :: 0 <= i < |record| ==> Fields([], record)[i] == Sanitised(record[i])
  {
    assert [] + Sanitised(record[0]) == Sanitised(record[0]);
  }

  lemma ContentIsText(record: seq<Option<Text>>)
    ensures HasContent(record) <==> HasText(Fields([], record))
  {
    if record == [] {
      assert !HasContent(record);
    } else {
      FieldsAre(record);
      SameContent(record, Fields([], record));
    }
  }

  lemma SameContent(record: seq<Option<Text>>, fields: seq<Text>)
    requires |fields| == |record| && forall i :: 0 <= i < |record| ==> fields[i] == Sanitised(record[i])
    ensures HasContent(record) <==> HasText(fields)
  {
    if HasContent(record) {
      var i :| 0 <= i < |record| && record[i].Some? && record[i].value != [];
      assert fields[i] != [];
    }
    if HasText(fields) {
      var i :| 0 <= i < |fields| && fields[i] != [];
      assert record[i].Some? && record[i].value != [];
    }
  }

  lemma {:induction false} FilterKeepsAll<T>(p: T -> bool, s: seq<T>)
    ensures |Filter(p, s)| <= |s|
    ensures |Filter(p, s)| == |s| ==> forall i :: 0 <= i < |s| ==> p(s[i])
  {
    if s != [] {
      var n := |s| - 1;
      FilterKeepsAll(p, s[..n]);
      assert |Filter(p, s)| == |Filter(p, s[..n])| + if p(s[n]) then 1 else 0;
      assert forall i :: 0 <= i < n ==> s[..n][i] == s[i];
    }
  }

  /** No record is lost exactly when every record after the header has a cell that is not empty. */
  lemma NothingDroppedExactlyWhen(table: seq<seq<Option<Text>>>)
    requires table != []
    ensures Parsed(Export(table)) == ReadBack([BOM], table) <==>
            forall i :: 0 < i < |table| ==> HasContent(table[i])
  {
    RoundTrip(table);
    var rows := ReadBack([BOM], table);
    forall i | 0 <= i < |table|
      ensures HasText(rows[i]) == (i == 0 || HasContent(table[i]))
    {
      ReadBackAt([BOM], table, i);
      if i == 0 {
        assert rows[0][0] != [];
      } else {
        ContentIsText(table[i]);
      }
    }
    FilterKeepsAll(HasText, rows);
    if forall i :: 0 < i < |table| ==> HasContent(table[i]) {
      FilterAll(HasText, rows);
    }
  }

  /** A cell after the first record comes back as it went in exactly when no spreadsheet could take it for a formula;
      what comes back never can be. */
  lemma CellComesBack(table: seq<seq<Option<Text>>>, i: nat, j: nat)
    requires 0 < i < |table| && j < |table[i]| && table[i][j].Some?
    ensures j < |ReadBack([BOM], table)[i]|
    ensures ReadBack([BOM], table)[i][j] ==
            if LooksLikeFormula(table[i][j].value) then [39] + table[i][j].value else table[i][j].value
    ensures ReadBack([BOM], table)[i][j] == table[i][j].value <==> !LooksLikeFormula(table[i][j].value)
    ensures !LooksLikeFormula(ReadBack([BOM], table)[i][j])
  {
    ReadBackAt([BOM], table, i);
    FieldsAre(table[i]);
    assert ReadBack([BOM], table)[i][j] == Sanitised(table[i][j]);
    assert |Sanitised(table[i][j])| == |table[i][j].value| + if StartsFormula(table[i][j].value) then 1 else 0;
  }

  // ---------------------------------------------------------------- what other programs write

  /** A field that needs no quotes: no line feed, carriage return, quotation mark or comma. */
  ghost predicate Plain(field: Text) {
    forall i :: 0 <= i < |field| ==> field[i] != 10 && field[i] != 13 && field[i] != 34 && field[i] != 44
  }

  ghost predicate IsLineEnd(end: Text) {
    end == [10] || end == [13] || end == [13, 10]
  }

  /** Rows of plain fields, and the ends of their lines: a line feed, a carriage return, or one after the other. */
  ghost predicate PlainTable(table: seq<seq<Text>>, ends: seq<Text>) {
    && |ends| == |table|
    && (forall i :: 0 <= i < |table| ==> table[i] != [] && IsLineEnd(ends[i]))
    && (forall i, j :: 0 <= i < |table| && 0 <= j < |table[i]| ==> Plain(table[i][j]))
  }

  ghost function PlainLine(fields: seq<Text>): Text
    requires fields != []
  {
    if |fields| == 1 then fields[0] else fields[0] + ([44] + PlainLine(fields[1..]))
  }

  ghost function PlainText(table: seq<seq<Text>>, ends: seq<Text>): Text
    requires PlainTable(table, ends)
  {
    if table == [] then [] else PlainLine(table[0]) + (ends[0] + PlainText(table[1..], ends[1..]))
  }

  lemma {:induction false} ScanPlain(field: Text, rest: Text, p: Parser)
    requires !p.quoted && Plain(field)
    ensures Scan(field + rest, p) == Scan(rest, p.(field := p.field + field))
  {
    if field == [] {
      assert field + rest == rest && p.field + field == p.field;
    } else {
      var q := p.(field := p.field + [field[0]]);
      assert (field + rest)[1..] == field[1..] + rest;
      ScanPlain(field[1..], rest, q);
      assert q.field + field[1..] == p.field + field;
    }
  }

  /** A carriage return and a line feed of the next, empty line are one line end; the empty line is dropped anyway. */
  lemma ScanAnyEnd(end: Text, more: Text, p: Parser)
    requires !p.quoted && IsLineEnd(end)
    ensures Scan(end + more, p) == Scan(more, EndRow(p))
  {
    if end == [13, 10] {
      ScanLineEnd(more, p);
    } else {
      assert (end + more)[1..] == more;
      if end == [13] && more != [] && more[0] == LF {
        assert !HasText([] + [[]]);
        assert EndRow(EndRow(p)) == EndRow(p);
      }
    }
  }

  lemma PlainLineOfRest(fields: seq<Text>, rest: Text)
    requires |fields| > 1
    ensures PlainLine(fields) + rest == fields[0] + ([COMMA] + (PlainLine(fields[1..]) + rest))
  {
  }

  lemma ScanLastField(field: Text, end: Text, more: Text, p: Parser)
    requires !p.quoted && p.field == [] && Plain(field) && IsLineEnd(end)
    ensures Scan(field + (end + more), p) == Scan(more, AddRow(p, p.row + [field]))
  {
    ScanPlain(field, end + more, p);
    assert p.field + field == field;
    ScanAnyEnd(end, more, p.(field := field));
  }

  lemma ScanField(field: Text, more: Text, p: Parser)
    requires !p.quoted && p.field == [] && Plain(field)
    ensures Scan(field + ([COMMA] + more), p) == Scan(more, p.(row := p.row + [field]))
  {
    ScanPlain(field, [COMMA] + more, p);
    assert p.field + field == field;
    ScanComma(more, p.(field := field));
  }

  lemma {:induction false} ScanPlainLine(fields: seq<Text>, end: Text, more: Text, p: Parser)
    requires !p.quoted && p.field == [] && fields != [] && IsLineEnd(end)
    requires forall j :: 0 <= j < |fields| ==> Plain(fields[j])
    ensures Scan(PlainLine(fields) + (end + more), p) == Scan(more, AddRow(p, p.row + fields))
  {
    if |fields| == 1 {
      ScanLastField(fields[0], end, more, p);
      assert fields == [fields[0]];
    } else {
      PlainLineOfRest(fields, end + more);
      ScanField(fields[0], PlainLine(fields[1..]) + (end + more), p);
      ScanPlainLine(fields[1..], end, more, p.(row := p.row + [fields[0]]));
      assert p.row + [fields[0]] + fields[1..] == p.row + fields;
    }
  }

  lemma {:induction false} ScanPlainText(table: seq<seq<Text>>, ends: seq<Text>, p: Parser)
    requires PlainTable(table, ends) && p == Parser(p.rows, [], [], false)
    ensures Scan(PlainText(table, ends), p) == p.(rows := p.rows + Filter(HasText, table))
  {
    if table == [] {
      assert p.rows + [] == p.rows;
    } else {
      ScanPlainLine(table[0], ends[0], PlainText(table[1..], ends[1..]), p);
      assert [] + table[0] == table[0];
      ScanPlainText(table[1..], ends[1..], AddRow(p, table[0]));
      FilterHead(table[0], table[1..]);
      assert table == [table[0]] + table[1..];
      ConcatAssociates(p.rows, [table[0]], Filter(HasText, table[1..]));
    }
  }

  /** Fields without quotes are read as they stand, whichever line ends are used and mixed; rows without text are
      dropped. */
  lemma PlainTextReadsBack(table: seq<seq<Text>>, ends: seq<Text>)
    requires PlainTable(table, ends)
    ensures Parsed(PlainText(table, ends)) == Filter(HasText, table)
  {
    ScanPlainText(table, ends, START);
    assert [] + Filter(HasText, table) == Filter(HasText, table);
    assert !HasText([] + [[]]);
  }
}
