/**
  CSV and TSV export of an approved transcript, and a reader for it: the quoting rules of section 2
  of RFC 4180, with LF between records as the export writes them.
*/
module DelimitedExport {
  import opened Wrappers
  import opened Speakers

  /** What Number.prototype.toString can print. */
  predicate NumberChar(c: char) {
    '0' <= c <= '9' || c == '+' || c == '-' || c == '.' || c == 'e' || 'a' <= c <= 'y' || c == 'N' || c == 'I'
  }

  type NumberText = s: string | s != "" && forall i :: 0 <= i < |s| ==> NumberChar(s[i]) witness "0"

  /** A segment as the export sees it: texts, and numbers already printed. */
  datatype Line = Line(
    id: string, speakerLabel: string, startMs: NumberText, endMs: NumberText, text: string, confidence: NumberText)

  predicate IsDelimiter(d: char) { d == ',' || d == '\t' }

  // ----- the printer -----

  function DoubleQuotes(value: string): string {
    if value == "" then ""
    else
      var n := |value| - 1;
      DoubleQuotes(value[..n]) + (if value[n] == '"' then "\"\"" else [value[n]])
  }

  function EscapeDelimitedField(value: string): string {
    "\"" + DoubleQuotes(value) + "\""
  }

  predicate FormulaChar(c: char) { c == '=' || c == '+' || c == '-' || c == '@' }

  /** The pattern ^\s*[=+\-@] */
  predicate LooksLikeFormula(value: string) {
    if value == "" then false
    else if IsSpace(value[0]) then LooksLikeFormula(value[1..])
    else FormulaChar(value[0])
  }

  function SanitizeSpreadsheetCell(value: string): string {
    if LooksLikeFormula(value) then "'" + value else value
  }

  function Join(parts: seq<string>, separator: char): string {
    if parts == [] then ""
    else if |parts| == 1 then parts[0]
    else Join(parts[..|parts| - 1], separator) + [separator] + parts[|parts| - 1]
  }

  const HEADER_FIELDS := ["segmentId", "speakerLabel", "startMs", "endMs", "text", "confidence"]

  function Escaped(fields: seq<string>): seq<string> {
    seq(|fields|, i requires 0 <= i < |fields| => EscapeDelimitedField(fields[i]))
  }

  function PrintedCells(line: Line): seq<string> {
    [EscapeDelimitedField(line.id), EscapeDelimitedField(SanitizeSpreadsheetCell(line.speakerLabel)),
     line.startMs, line.endMs, EscapeDelimitedField(SanitizeSpreadsheetCell(line.text)), line.confidence]
  }

  function RowTexts(lines: seq<Line>, delimiter: char): seq<string> {
    if lines == [] then [Join(Escaped(HEADER_FIELDS), delimiter)]
    else RowTexts(lines[..|lines| - 1], delimiter) + [Join(PrintedCells(lines[|lines| - 1]), delimiter)]
  }

  function CreateDelimitedExport(lines: seq<Line>, delimiter: char): string {
    Join(RowTexts(lines, delimiter), '\n')
  }

  // ----- the reader -----

  datatype Mode = FieldStart | InPlain | InQuoted | QuoteSeen

  datatype Reader = Rejected | Reader(rows: seq<seq<string>>, row: seq<string>, field: string, mode: Mode)

  const EMPTY := Reader([], [], "", FieldStart)

  function EndField(r: Reader): Reader
    requires r.Reader?
  {
    Reader(r.rows, r.row + [r.field], "", FieldStart)
  }

  function EndRow(r: Reader): Reader
    requires r.Reader?
  {
    Reader(r.rows + [r.row + [r.field]], [], "", FieldStart)
  }

  function ReadChar(r: Reader, c: char, delimiter: char): Reader {
    match r
    case Rejected => Rejected
    case Reader(rows, row, field, mode) =>
      match mode
      case InQuoted => if c == '"' then r.(mode := QuoteSeen) else r.(field := field + [c])
      case QuoteSeen =>
        if c == '"' then r.(field := field + [c], mode := InQuoted)
        else if c == delimiter then EndField(r)
        else if c == '\n' then EndRow(r)
        else Rejected
      case _ =>
        if c == delimiter then EndField(r)
        else if c == '\n' then EndRow(r)
        else if c == '"' then (if mode.FieldStart? then r.(mode := InQuoted) else Rejected)
        else r.(field := field + [c], mode := InPlain)
  }

  function Read(r: Reader, s: string, delimiter: char): Reader {
    if s == "" then r else ReadChar(Read(r, s[..|s| - 1], delimiter), s[|s| - 1], delimiter)
  }

  function ParseDelimited(s: string, delimiter: char): Option<seq<seq<string>>> {
    match Read(EMPTY, s, delimiter)
    case Rejected => None
    case Reader(rows, row, field, mode) => if mode.InQuoted? then None else Some(rows + [row + [field]])
  }

  lemma {:induction false} ReadConcat(r: Reader, a: string, b: string, delimiter: char)
    ensures Read(r, a + b, delimiter) == Read(Read(r, a, delimiter), b, delimiter)
  {
    if b == "" {
      assert a + b == a;
    } else {
      ReadConcat(r, a, b[..|b| - 1], delimiter);
      assert (a + b)[..|a + b| - 1] == a + b[..|b| - 1];
    }
  }

  // ----- reading what was printed -----

  ghost predicate AtFieldStart(r: Reader) {
    r.Reader? && r.field == "" && r.mode.FieldStart?
  }

  /** After a printed cell, quoted or plain, the reader holds its value and is ready for a separator. */
  ghost predicate CellRead(before: Reader, after: Reader, value: string)
    requires before.Reader?
  {
    after == Reader(before.rows, before.row, value, QuoteSeen) || after == Reader(before.rows, before.row, value, InPlain)
  }

  lemma {:induction false} ReadQuotedChar(r: Reader, c: char, delimiter: char)
    requires r.Reader? && r.mode.InQuoted?
    ensures Read(r, if c == '"' then "\"\"" else [c], delimiter) == r.(field := r.field + [c])
  {
    if c == '"' {
      assert "\"\""[..1] == "\"" && "\""[..0] == "";
      assert Read(r, "\"", delimiter) == ReadChar(r, '"', delimiter);
    } else {
      assert [c][..0] == "";
    }
  }

  lemma {:induction false} ReadDoubled(r: Reader, value: string, delimiter: char)
    requires r.Reader? && r.mode.InQuoted?
    ensures Read(r, DoubleQuotes(value), delimiter) == r.(field := r.field + value)
  {
    if value == "" {
      assert r.field + value == r.field;
    } else {
      var n := |value| - 1;
      ReadDoubled(r, value[..n], delimiter);
      var one := if value[n] == '"' then "\"\"" else [value[n]];
      assert DoubleQuotes(value) == DoubleQuotes(value[..n]) + one;
      ReadConcat(r, DoubleQuotes(value[..n]), one, delimiter);
      ReadQuotedChar(r.(field := r.field + value[..n]), value[n], delimiter);
      assert r.field + value[..n] + [value[n]] == r.field + value;
    }
  }

  lemma {:induction false} ReadEscaped(r: Reader, value: string, delimiter: char)
    requires AtFieldStart(r) && IsDelimiter(delimiter)
    ensures CellRead(r, Read(r, EscapeDelimitedField(value), delimiter), value)
  {
    var inside := r.(mode := InQuoted);
    assert "\""[..0] == "";
    assert Read(r, "\"", delimiter) == inside;
    ReadConcat(r, "\"", DoubleQuotes(value), delimiter);
    ReadDoubled(inside, value, delimiter);
    ReadConcat(r, "\"" + DoubleQuotes(value), "\"", delimiter);
    assert "" + value == value;
  }

  lemma {:induction false} ReadNumber(r: Reader, value: string, delimiter: char)
    requires AtFieldStart(r) && IsDelimiter(delimiter)
    requires value != "" && forall i :: 0 <= i < |value| ==> NumberChar(value[i])
    ensures Read(r, value, delimiter) == Reader(r.rows, r.row, value, InPlain)
  {
    var n := |value| - 1;
    var c := value[n];
    assert NumberChar(c) && c != delimiter && c != '\n' && c != '"';
    assert value == value[..n] + [c];
    if n > 0 {
      ReadNumber(r, value[..n], delimiter);
    } else {
      assert Read(r, value[..0], delimiter) == r;
    }
  }

  /** The text of one cell and the value it stands for. */
  datatype Cell = Quoted(value: string) | Plain(number: NumberText)

  function CellText(c: Cell): string {
    match c case Quoted(v) => EscapeDelimitedField(v) case Plain(n) => n
  }

  function CellValue(c: Cell): string {
    match c case Quoted(v) => v case Plain(n) => n
  }

  function Texts(cells: seq<Cell>): seq<string> {
    seq(|cells|, i requires 0 <= i < |cells| => CellText(cells[i]))
  }

  function Values(cells: seq<Cell>): seq<string> {
    seq(|cells|, i requires 0 <= i < |cells| => CellValue(cells[i]))
  }

  lemma {:induction false} ReadCell(r: Reader, c: Cell, delimiter: char)
    requires AtFieldStart(r) && IsDelimiter(delimiter)
    ensures CellRead(r, Read(r, CellText(c), delimiter), CellValue(c))
  {
    match c
    case Quoted(v) => ReadEscaped(r, v, delimiter);
    case Plain(n) => ReadNumber(r, n, delimiter);
  }

  /** A joined row, read from its start, leaves all its values but the last in the row and that one in the field. */
  lemma {:induction false} ReadRow(r: Reader, cells: seq<Cell>, delimiter: char)
    requires AtFieldStart(r) && r.row == [] && IsDelimiter(delimiter) && cells != []
    ensures var after := Read(r, Join(Texts(cells), delimiter), delimiter);
            && after.Reader? && after.rows == r.rows && after.row + [after.field] == Values(cells)
            && (after.mode.QuoteSeen? || after.mode.InPlain?)
  {
    var n := |cells| - 1;
    if n == 0 {
      ReadCell(r, cells[0], delimiter);
      assert Texts(cells) == [CellText(cells[0])] && Values(cells) == [CellValue(cells[0])];
    } else {
      var front := cells[..n];
      ReadRow(r, front, delimiter);
      var joined := Join(Texts(front), delimiter);
      assert Texts(cells)[..n] == Texts(front) && Values(cells) == Values(front) + [CellValue(cells[n])];
      assert Join(Texts(cells), delimiter) == joined + [delimiter] + CellText(cells[n]);
      ReadConcat(r, joined + [delimiter], CellText(cells[n]), delimiter);
      ReadConcat(r, joined, [delimiter], delimiter);
      ReadNextCell(Read(r, joined, delimiter), cells[n], delimiter);
    }
  }

  /** Behind a cell, a delimiter and the next cell move the first one's value into the row. */
  lemma {:induction false} ReadNextCell(r: Reader, c: Cell, delimiter: char)
    requires r.Reader? && (r.mode.QuoteSeen? || r.mode.InPlain?) && IsDelimiter(delimiter)
    ensures Read(r, [delimiter], delimiter) == EndField(r)
    ensures CellRead(EndField(r), Read(EndField(r), CellText(c), delimiter), CellValue(c))
  {
    assert [delimiter][..0] == "";
    ReadCell(EndField(r), c, delimiter);
  }

  function CellsOf(line: Line): seq<Cell> {
    [Quoted(line.id), Quoted(SanitizeSpreadsheetCell(line.speakerLabel)), Plain(line.startMs), Plain(line.endMs),
     Quoted(SanitizeSpreadsheetCell(line.text)), Plain(line.confidence)]
  }

  /** The sanitized field matrix, header first. */
  function Matrix(lines: seq<Line>): seq<seq<string>> {
    if lines == [] then [HEADER_FIELDS]
    else
      var l := lines[|lines| - 1];
      Matrix(lines[..|lines| - 1])
        + [[l.id, SanitizeSpreadsheetCell(l.speakerLabel), l.startMs, l.endMs, SanitizeSpreadsheetCell(l.text), l.confidence]]
  }

  function HeaderCells(): seq<Cell> {
    seq(|HEADER_FIELDS|, i requires 0 <= i < |HEADER_FIELDS| => Quoted(HEADER_FIELDS[i]))
  }

  /** The reader has seen whole cells only, and closing the row now would give `matrix`. */
  ghost predicate HasRead(r: Reader, matrix: seq<seq<string>>) {
    r.Reader? && (r.mode.QuoteSeen? || r.mode.InPlain?) && r.rows + [r.row + [r.field]] == matrix
  }

  lemma {:induction false} ReadNextRow(r: Reader, matrix: seq<seq<string>>, cells: seq<Cell>, delimiter: char)
    requires HasRead(r, matrix) && cells != [] && IsDelimiter(delimiter)
    ensures HasRead(Read(r, "\n" + Join(Texts(cells), delimiter), delimiter), matrix + [Values(cells)])
  {
    var r' := EndRow(r);
    assert "\n"[..0] == "";
    assert Read(r, "\n", delimiter) == r';
    ReadConcat(r, "\n", Join(Texts(cells), delimiter), delimiter);
    ReadRow(r', cells, delimiter);
  }

  lemma {:induction false} ReadHeader(delimiter: char)
    requires IsDelimiter(delimiter)
    ensures HasRead(Read(EMPTY, CreateDelimitedExport([], delimiter), delimiter), [HEADER_FIELDS])
  {
    var cells := HeaderCells();
    ReadRow(EMPTY, cells, delimiter);
    assert Texts(cells) == Escaped(HEADER_FIELDS) && Values(cells) == HEADER_FIELDS;
  }

  lemma {:induction false} ReadExport(lines: seq<Line>, delimiter: char)
    requires IsDelimiter(delimiter)
    ensures HasRead(Read(EMPTY, CreateDelimitedExport(lines, delimiter), delimiter), Matrix(lines))
  {
    if lines == [] {
      ReadHeader(delimiter);
    } else {
      var n := |lines| - 1;
      ReadExport(lines[..n], delimiter);
      var front := CreateDelimitedExport(lines[..n], delimiter);
      var cells := CellsOf(lines[n]);
      ReadNextRow(Read(EMPTY, front, delimiter), Matrix(lines[..n]), cells, delimiter);
      ReadConcat(EMPTY, front, "\n" + Join(Texts(cells), delimiter), delimiter);
      ExportGrows(lines, delimiter);
      ValuesAreTheLastRow(lines);
    }
  }

  lemma {:induction false} ValuesAreTheLastRow(lines: seq<Line>)
    requires lines != []
    ensures Matrix(lines) == Matrix(lines[..|lines| - 1]) + [Values(CellsOf(lines[|lines| - 1]))]
  {
    var l := lines[|lines| - 1];
    assert Values(CellsOf(l)) ==
      [l.id, SanitizeSpreadsheetCell(l.speakerLabel), l.startMs, l.endMs, SanitizeSpreadsheetCell(l.text), l.confidence];
  }

  lemma {:induction false} ExportGrows(lines: seq<Line>, delimiter: char)
    requires lines != []
    ensures var n := |lines| - 1;
            CreateDelimitedExport(lines, delimiter) ==
              CreateDelimitedExport(lines[..n], delimiter) + ("\n" + Join(Texts(CellsOf(lines[n])), delimiter))
  {
    var n := |lines| - 1;
    var rows := RowTexts(lines, delimiter);
    assert |rows| > 1 && rows[..|rows| - 1] == RowTexts(lines[..n], delimiter) by { RowCount(lines[..n], delimiter); }
    assert Texts(CellsOf(lines[n])) == PrintedCells(lines[n]);
  }

  lemma {:induction false} RowCount(lines: seq<Line>, delimiter: char)
    ensures |RowTexts(lines, delimiter)| == |lines| + 1
  {
    if lines != [] { RowCount(lines[..|lines| - 1], delimiter); }
  }

  /**
    The export can be read back: the reader returns the header and, for each segment in order, its
    sanitized fields, whatever quotes, delimiters and line breaks they contain.
  */
  lemma {:induction false} ExportIsInvertible(lines: seq<Line>, delimiter: char)
    requires IsDelimiter(delimiter)
    ensures ParseDelimited(CreateDelimitedExport(lines, delimiter), delimiter) == Some(Matrix(lines))
  {
    ReadExport(lines, delimiter);
  }

  /** A text looks like a formula when its first character that is not white space starts one. */
  lemma {:induction false} FormulaMeans(value: string)
    ensures LooksLikeFormula(value) <==>
              exists k :: 0 <= k < |value| && value[k] in "=+-@" && AllSpace(value[..k])
  {
    assert forall c: char :: FormulaChar(c) <==> c in "=+-@";
    if value != "" {
      FormulaMeans(value[1..]);
      if IsSpace(value[0]) {
        if LooksLikeFormula(value[1..]) {
          var k :| 0 <= k < |value[1..]| && FormulaChar(value[1..][k]) && AllSpace(value[1..][..k]);
          assert FormulaChar(value[k + 1]) && value[..k + 1] == [value[0]] + value[1..][..k];
        }
        if k :| 0 <= k < |value| && FormulaChar(value[k]) && AllSpace(value[..k]) {
          assert k > 0 && FormulaChar(value[1..][k - 1]);
          assert value[1..][..k - 1] == value[..k][1..];
        }
      } else if FormulaChar(value[0]) {
        assert AllSpace(value[..0]);
      } else {
        forall k | 0 <= k < |value| && FormulaChar(value[k])
          ensures !AllSpace(value[..k])
        {
          if k > 0 { assert !IsSpace(value[..k][0]); }
        }
      }
    }
  }

  /** A cell that would be taken for a formula, with an apostrophe in front; any other as it is. */
  ghost predicate Defused(cell: string, original: string) {
    && !LooksLikeFormula(cell)
    && (LooksLikeFormula(original) ==> cell == ['\''] + original)
    && (!LooksLikeFormula(original) ==> cell == original)
  }

  /**
    What a reader finds: the six column names, then a row for each segment, in order, with its id, times
    and confidence as they are; no speaker or text in it looks like a formula, harmless ones are as they
    were, and the others differ by an apostrophe in front.
  */
  lemma {:induction false} NoFormulaCells(lines: seq<Line>, delimiter: char, i: nat)
    requires IsDelimiter(delimiter) && i < |lines|
    ensures var rows := ParseDelimited(CreateDelimitedExport(lines, delimiter), delimiter);
            && rows.Some? && |rows.value| == |lines| + 1
            && rows.value[0] == ["segmentId", "speakerLabel", "startMs", "endMs", "text", "confidence"]
            && var row, l := rows.value[i + 1], lines[i];
               && |row| == 6 && row[0] == l.id && Defused(row[1], l.speakerLabel) && row[2] == l.startMs
               && row[3] == l.endMs && Defused(row[4], l.text) && row[5] == l.confidence
  {
    ExportIsInvertible(lines, delimiter);
    MatrixRow(lines, i);
    HeaderFirst(lines);
    SanitizedIsDefused(lines[i].speakerLabel);
    SanitizedIsDefused(lines[i].text);
  }

  lemma {:induction false} SanitizedIsDefused(value: string)
    ensures Defused(SanitizeSpreadsheetCell(value), value)
  {
    assert LooksLikeFormula(value) ==> !LooksLikeFormula("'" + value) by { assert ("'" + value)[0] == '\''; }
  }

  lemma {:induction false} HeaderFirst(lines: seq<Line>)
    ensures |Matrix(lines)| > 0 && Matrix(lines)[0] == HEADER_FIELDS
  {
    if lines != [] { HeaderFirst(lines[..|lines| - 1]); }
  }

  /** Quoting goes character by character; a quote is doubled, and a text without any is only put between two. */
  lemma {:induction false} OnlyQuotesAreDoubled(a: string, b: string)
    ensures DoubleQuotes(a + b) == DoubleQuotes(a) + DoubleQuotes(b)
  {
    if b == "" {
      assert a + b == a;
    } else {
      var n := |b| - 1;
      OnlyQuotesAreDoubled(a, b[..n]);
      assert (a + b)[..|a + b| - 1] == a + b[..n];
    }
  }

  lemma {:induction false} OneQuoteIsDoubled()
    ensures DoubleQuotes("\"") == "\"\""
  {
    assert "\""[..0] == "";
  }

  lemma {:induction false} WithoutQuotes(a: string)
    ensures '"' !in a ==> DoubleQuotes(a) == a && EscapeDelimitedField(a) == "\"" + a + "\""
  {
    if a != "" {
      WithoutQuotes(a[..|a| - 1]);
      assert a == a[..|a| - 1] + [a[|a| - 1]];
    }
  }

  lemma {:induction false} MatrixRow(lines: seq<Line>, i: nat)
    requires i < |lines|
    ensures |Matrix(lines)| == |lines| + 1
    ensures var l := lines[i];
            Matrix(lines)[i + 1] ==
              [l.id, SanitizeSpreadsheetCell(l.speakerLabel), l.startMs, l.endMs, SanitizeSpreadsheetCell(l.text), l.confidence]
  {
    var n := |lines| - 1;
    if n > 0 { MatrixRow(lines[..n], if i < n then i else 0); }
  }
}
