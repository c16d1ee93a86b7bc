/** The CSV parser of the grade preview, and why it undoes a writer that follows section 2 of
    RFC 4180. */
module Csv {

  const BOM := '\U{FEFF}'

  // ----- the parser as a machine over the remaining text

  datatype Machine = Machine(rows: seq<seq<string>>, row: seq<string>, field: string, inQuotes: bool)

  const START := Machine([], [], "", false)

  function Scan(text: string, m: Machine): Machine {
    if text == "" then m
    else if m.inQuotes then
      if text[0] != '"' then Scan(text[1..], m.(field := m.field + [text[0]]))
      else if |text| > 1 && text[1] == '"' then Scan(text[2..], m.(field := m.field + "\""))
      else Scan(text[1..], m.(inQuotes := false))
    else if text[0] == '"' then Scan(text[1..], m.(inQuotes := true))
    else if text[0] == ',' then Scan(text[1..], m.(row := m.row + [m.field], field := ""))
    else if text[0] == '\r' then Scan(text[1..], m)
    else if text[0] == '\n' then Scan(text[1..], Machine(m.rows + [m.row + [m.field]], [], "", false))
    else Scan(text[1..], m.(field := m.field + [text[0]]))
  }

  function Finish(m: Machine): seq<seq<string>> {
    if m.field != "" || m.row != [] then m.rows + [m.row + [m.field]] else m.rows
  }

  function WithoutBom(input: string): string {
    if input != "" && input[0] == BOM then input[1..] else input
  }

  function Parsed(input: string): seq<seq<string>> { Finish(Scan(WithoutBom(input), START)) }

  /** parseCsv: it stops although an escaped quote takes two characters at once. */
  method ParseCsv(input: string) returns (rows: seq<seq<string>>)
    ensures rows == Parsed(input)
  {
    var text := input;
    if |text| > 0 && text[0] == BOM {
      text := text[1..];
    }
    rows := [];
    var row: seq<string>, field, inQuotes, i := [], "", false, 0;
    while i < |text|
      invariant 0 <= i <= |text|
      invariant Scan(text, START) == Scan(text[i..], Machine(rows, row, field, inQuotes))
    {
      var ch := text[i];
      assert text[i..][1..] == text[i + 1..];
      if inQuotes {
        if ch == '"' {
          if i + 1 < |text| && text[i + 1] == '"' {
            assert text[i..][2..] == text[i + 2..];
            field := field + "\"";
            i := i + 2;
            continue;
          }
          inQuotes := false;
          i := i + 1;
          continue;
        }
        field := field + [ch];
        i := i + 1;
        continue;
      }
      if ch == '"' {
        inQuotes := true;
        i := i + 1;
        continue;
      }
      if ch == ',' {
        row := row + [field];
        field := "";
        i := i + 1;
        continue;
      }
      if ch == '\r' {
        i := i + 1;
        continue;
      }
      if ch == '\n' {
        row := row + [field];
        rows := rows + [row];
        row := [];
        field := "";
        i := i + 1;
        continue;
      }
      field := field + [ch];
      i := i + 1;
    }
    if field != "" || |row| > 0 {
      row := row + [field];
      rows := rows + [row];
    }
  }

  // ----- a writer

  // A cell and whether it is written in quotes.
  datatype Cell = Cell(text: string, quoted: bool)

  predicate NeedsQuotes(s: string) { '"' in s || ',' in s || '\n' in s || '\r' in s }

  predicate Legal(c: Cell) { NeedsQuotes(c.text) ==> c.quoted }

  predicate RowLegal(row: seq<Cell>) { forall k | 0 <= k < |row| :: Legal(row[k]) }

  predicate NonEmpty(rows: seq<seq<Cell>>) { forall i | 0 <= i < |rows| :: rows[i] != [] }

  predicate AllLegal(rows: seq<seq<Cell>>) { NonEmpty(rows) && forall i | 0 <= i < |rows| :: RowLegal(rows[i]) }

  function Doubled(s: string, rest: string): string {
    if s == "" then rest else (if s[0] == '"' then "\"\"" else [s[0]]) + Doubled(s[1..], rest)
  }

  function CellText(c: Cell, rest: string): string {
    if c.quoted then "\"" + Doubled(c.text, "\"" + rest) else c.text + rest
  }

  function RowText(row: seq<Cell>, eol: string, rest: string): string
    requires row != []
  {
    CellText(row[0], if |row| == 1 then eol + rest else "," + RowText(row[1..], eol, rest))
  }

  // Every row but the last ends with eol; the last one does if the text is closed.
  function Rendered(rows: seq<seq<Cell>>, eol: string, closed: bool): string
    requires NonEmpty(rows)
  {
    if rows == [] then ""
    else RowText(rows[0], if |rows| == 1 && !closed then "" else eol, Rendered(rows[1..], eol, closed))
  }

  function Texts(row: seq<Cell>): seq<string> {
    if row == [] then [] else [row[0].text] + Texts(row[1..])
  }

  function AllTexts(rows: seq<seq<Cell>>): seq<seq<string>> {
    if rows == [] then [] else [Texts(rows[0])] + AllTexts(rows[1..])
  }

  // ----- the parser undoes the writer

  lemma {:induction false} ScanPlain(s: string, rest: string, m: Machine)
    requires !NeedsQuotes(s) && !m.inQuotes
    ensures Scan(s + rest, m) == Scan(rest, m.(field := m.field + s))
  {
    if s == "" {
      assert s + rest == rest && m.field + s == m.field;
    } else {
      assert (s + rest)[1..] == s[1..] + rest;
      ScanPlain(s[1..], rest, m.(field := m.field + [s[0]]));
      assert m.field + [s[0]] + s[1..] == m.field + s;
    }
  }

  lemma {:induction false} ScanQuoted(s: string, rest: string, m: Machine)
    requires m.inQuotes && (rest != "" ==> rest[0] != '"')
    ensures Scan(Doubled(s, "\"" + rest), m) == Scan(rest, m.(field := m.field + s, inQuotes := false))
  {
    if s == "" {
      assert ("\"" + rest)[1..] == rest && m.field + s == m.field;
    } else {
      var more := Doubled(s[1..], "\"" + rest);
      assert ("\"\"" + more)[2..] == more && ([s[0]] + more)[1..] == more;
      ScanQuoted(s[1..], rest, m.(field := m.field + [s[0]]));
      assert m.field + [s[0]] + s[1..] == m.field + s;
    }
  }

  lemma ScanCell(c: Cell, rest: string, m: Machine)
    requires Legal(c) && !m.inQuotes && m.field == "" && (rest != "" ==> rest[0] != '"')
    ensures Scan(CellText(c, rest), m) == Scan(rest, m.(field := c.text))
  {
    if c.quoted {
      assert CellText(c, rest)[1..] == Doubled(c.text, "\"" + rest);
      ScanQuoted(c.text, rest, m.(inQuotes := true));
    } else {
      ScanPlain(c.text, rest, m);
    }
    assert m.field + c.text == c.text;
  }

  predicate IsEol(eol: string) { eol == "\n" || eol == "\r\n" }

  lemma ScanEol(eol: string, rest: string, m: Machine)
    requires IsEol(eol) && !m.inQuotes
    ensures Scan(eol + rest, m) == Scan(rest, Machine(m.rows + [m.row + [m.field]], [], "", false))
  {
    if eol == "\n" {
      assert (eol + rest)[1..] == rest;
    } else {
      assert (eol + rest)[1..] == "\n" + rest;
      assert ("\n" + rest)[1..] == rest;
    }
  }

  lemma ScanComma(rest: string, m: Machine)
    requires !m.inQuotes
    ensures Scan("," + rest, m) == Scan(rest, m.(row := m.row + [m.field], field := ""))
  {
    assert ("," + rest)[1..] == rest;
  }

  lemma {:induction false} ScanRow(row: seq<Cell>, eol: string, rest: string, m: Machine)
    requires row != [] && RowLegal(row) && IsEol(eol)
    requires !m.inQuotes && m.field == ""
    ensures Scan(RowText(row, eol, rest), m) == Scan(rest, Machine(m.rows + [m.row + Texts(row)], [], "", false))
  {
    hide Scan, CellText, Legal, RowLegal;
    var after := m.(field := row[0].text);
    LegalParts(row);
    if |row| == 1 {
      ScanCell(row[0], eol + rest, m);
      ScanEol(eol, rest, after);
      assert Texts(row) == [row[0].text];
    } else {
      var more := RowText(row[1..], eol, rest);
      ScanCell(row[0], "," + more, m);
      ScanComma(more, after);
      ScanRow(row[1..], eol, rest, after.(row := m.row + [row[0].text], field := ""));
      assert m.row + [row[0].text] + Texts(row[1..]) == m.row + Texts(row);
    }
  }

  lemma LegalParts(row: seq<Cell>)
    requires row != [] && RowLegal(row)
    ensures Legal(row[0]) && RowLegal(row[1..])
  {}

  // A row at the very end of the text, without a line ending.
  lemma {:induction false} FinishRow(row: seq<Cell>, m: Machine)
    requires row != [] && RowLegal(row) && !m.inQuotes && m.field == ""
    ensures Finish(Scan(RowText(row, "", ""), m)) ==
            if m.row == [] && |row| == 1 && row[0].text == "" then m.rows else m.rows + [m.row + Texts(row)]
  {
    hide Scan, CellText, Legal, RowLegal;
    var after := m.(field := row[0].text);
    LegalParts(row);
    if |row| == 1 {
      ScanCell(row[0], "", m);
      ScanNothing(after);
      assert "" + "" == "" && Texts(row) == [row[0].text];
    } else {
      var more := RowText(row[1..], "", "");
      ScanCell(row[0], "," + more, m);
      ScanComma(more, after);
      FinishRow(row[1..], after.(row := m.row + [row[0].text], field := ""));
      assert m.row + [row[0].text] + Texts(row[1..]) == m.row + Texts(row);
    }
  }

  lemma ScanNothing(m: Machine)
    ensures Scan("", m) == m
  {}

  // The parser does not see the last row: it is one empty cell and has no line ending.
  predicate Unseen(rows: seq<seq<Cell>>, closed: bool) {
    !closed && rows != [] && |rows[|rows| - 1]| == 1 && rows[|rows| - 1][0].text == ""
  }

  function Seen(rows: seq<seq<Cell>>, closed: bool): seq<seq<Cell>> {
    if Unseen(rows, closed) then rows[..|rows| - 1] else rows
  }

  lemma SeenFirst(rows: seq<seq<Cell>>, closed: bool)
    requires rows != [] && NonEmpty(rows)
    ensures |rows| > 1 || closed ==>
              AllTexts(Seen(rows, closed)) == [Texts(rows[0])] + AllTexts(Seen(rows[1..], closed))
    ensures |rows| == 1 && !closed ==>
              AllTexts(Seen(rows, closed)) == if |rows[0]| == 1 && rows[0][0].text == "" then [] else [Texts(rows[0])]
  {
    hide Texts;
    if |rows| > 1 || closed {
      assert Seen(rows, closed) == [rows[0]] + Seen(rows[1..], closed);
      assert Seen(rows, closed)[1..] == Seen(rows[1..], closed);
    } else {
      assert AllTexts(rows) == [Texts(rows[0])];
    }
  }

  lemma RenderedFirst(rows: seq<seq<Cell>>, eol: string, closed: bool)
    requires rows != [] && NonEmpty(rows)
    ensures |rows| > 1 || closed ==>
              Rendered(rows, eol, closed) == RowText(rows[0], eol, Rendered(rows[1..], eol, closed))
    ensures |rows| == 1 && !closed ==> Rendered(rows, eol, closed) == RowText(rows[0], "", "")
  {}

  lemma {:induction false} ScanRows(rows: seq<seq<Cell>>, eol: string, closed: bool, done: seq<seq<string>>)
    requires AllLegal(rows) && IsEol(eol)
    ensures Finish(Scan(Rendered(rows, eol, closed), Machine(done, [], "", false))) ==
            done + AllTexts(Seen(rows, closed))
  {
    var m := Machine(done, [], "", false);
    if rows == [] {
      ScanNothing(m);
    } else {
      hide Scan, Rendered, RowText, RowLegal, Texts, Finish, Seen;
      assert [] + Texts(rows[0]) == Texts(rows[0]);
      SeenFirst(rows, closed);
      RenderedFirst(rows, eol, closed);
      if |rows| == 1 && !closed {
        FinishRow(rows[0], m);
      } else {
        ScanRow(rows[0], eol, Rendered(rows[1..], eol, closed), m);
        ScanRows(rows[1..], eol, closed, done + [Texts(rows[0])]);
      }
    }
  }

  // The text after a byte order mark is rendered by cutting the mark from the first cell.
  lemma CutFirst(rows: seq<seq<Cell>>, eol: string, closed: bool)
    requires AllLegal(rows) && IsEol(eol)
    requires Rendered(rows, eol, closed) != "" && Rendered(rows, eol, closed)[0] == BOM
    ensures rows != [] && rows[0][0].text != "" && !rows[0][0].quoted
    ensures
      var cut := [rows[0][0].(text := rows[0][0].text[1..])] + rows[0][1..];
      && AllLegal([cut] + rows[1..])
      && Rendered([cut] + rows[1..], eol, closed) == Rendered(rows, eol, closed)[1..]
  {
    var row, first := rows[0], rows[0][0];
    assert RowLegal(row);
    var rest := Rendered(rows[1..], eol, closed);
    var end := if |rows| == 1 && !closed then "" else eol;
    var tail := if |row| == 1 then end + rest else "," + RowText(row[1..], end, rest);
    assert Rendered(rows, eol, closed) == CellText(first, tail);
    CutCell(first, tail);
    var cut := [first.(text := first.text[1..])] + row[1..];
    assert cut[1..] == row[1..] && RowLegal(cut);
    assert ([cut] + rows[1..])[1..] == rows[1..];
  }

  lemma CutCell(c: Cell, tail: string)
    requires Legal(c) && (tail == "" || tail[0] != BOM) && CellText(c, tail) != "" && CellText(c, tail)[0] == BOM
    ensures c.text != "" && !c.quoted && Legal(c.(text := c.text[1..]))
    ensures CellText(c.(text := c.text[1..]), tail) == CellText(c, tail)[1..]
  {
    assert c.text == "" ==> c.text + tail == tail;
  }

  /** The round trip: for all rows of any cells, quoted wherever section 2 of RFC 4180 asks for it and
      anywhere else, with either line ending, with or without one at the end of the text, parsing
      gives back the rows exactly if the text does not begin with a byte order mark and the last row
      is not one empty cell without a line ending. */
  lemma RoundTrip(rows: seq<seq<Cell>>, eol: string, closed: bool)
    requires AllLegal(rows) && IsEol(eol)
    ensures
      var text := Rendered(rows, eol, closed);
      Parsed(text) == AllTexts(rows) <==>
        && (text == "" || text[0] != '\U{FEFF}')
        && (closed || rows == [] || |rows[|rows| - 1]| != 1 || rows[|rows| - 1][0].text != "")
  {
    hide Scan, RowText, RowLegal, Texts, Finish;
    var text := Rendered(rows, eol, closed);
    if text == "" || text[0] != BOM {
      ScanRows(rows, eol, closed, []);
      assert [] + AllTexts(Seen(rows, closed)) == AllTexts(Seen(rows, closed));
      TextsCount(rows);
      TextsCount(Seen(rows, closed));
    } else {
      CutFirst(rows, eol, closed);
      var cut := [rows[0][0].(text := rows[0][0].text[1..])] + rows[0][1..];
      var shorter := [cut] + rows[1..];
      ScanRows(shorter, eol, closed, []);
      assert [] + AllTexts(Seen(shorter, closed)) == AllTexts(Seen(shorter, closed));
      TextsCount(rows);
      TextsCount(Seen(shorter, closed));
      if !Unseen(shorter, closed) {
        CutTexts(rows, cut);
      }
    }
  }

  lemma {:induction false} TextsCount(rows: seq<seq<Cell>>)
    ensures |AllTexts(rows)| == |rows|
  {
    if rows != [] {
      TextsCount(rows[1..]);
    }
  }

  lemma CutTexts(rows: seq<seq<Cell>>, cut: seq<Cell>)
    requires rows != [] && rows[0] != [] && cut != [] && |cut[0].text| < |rows[0][0].text|
    ensures AllTexts([cut] + rows[1..]) != AllTexts(rows)
  {
    assert AllTexts([cut] + rows[1..])[0][0] == cut[0].text;
    assert AllTexts(rows)[0][0] == rows[0][0].text;
  }

  /** With every cell in quotes and the last row closed there is no exception. */
  lemma FullyQuotedRoundTrip(rows: seq<seq<Cell>>, eol: string)
    requires NonEmpty(rows) && forall i, k | 0 <= i < |rows| && 0 <= k < |rows[i]| :: rows[i][k].quoted
    requires IsEol(eol)
    ensures Parsed(Rendered(rows, eol, true)) == AllTexts(rows)
  {
    RoundTrip(rows, eol, true);
    if rows != [] {
      assert rows[0][0].quoted;
    }
  }

  // ----- every text, character by character

  // What a character contributes.
  datatype Mark = Nothing | Literal(c: char) | CellEnd | RowEnd

  function Quotes(s: string): nat {
    if s == "" then 0 else Quotes(s[..|s| - 1]) + if s[|s| - 1] == '"' then 1 else 0
  }

  // An odd number of quotes stands before the character.
  predicate Inside(text: string, i: nat)
    requires i <= |text|
  {
    Quotes(text[..i]) % 2 == 1
  }

  function MarkAt(text: string, i: nat): Mark
    requires i < |text|
  {
    if text[i] == '"' then (if !Inside(text, i) && i > 0 && text[i - 1] == '"' then Literal('"') else Nothing)
    else if Inside(text, i) then Literal(text[i])
    else if text[i] == ',' then CellEnd
    else if text[i] == '\n' then RowEnd
    else if text[i] == '\r' then Nothing
    else Literal(text[i])
  }

  // Finished rows, the row that is growing and the cell that is growing.
  datatype Sheet = Sheet(rows: seq<seq<string>>, row: seq<string>, cell: string)

  function Marked(sheet: Sheet, mark: Mark): Sheet {
    match mark
    case Nothing => sheet
    case Literal(c) => sheet.(cell := sheet.cell + [c])
    case CellEnd => Sheet(sheet.rows, sheet.row + [sheet.cell], "")
    case RowEnd => Sheet(sheet.rows + [sheet.row + [sheet.cell]], [], "")
  }

  function SheetUpTo(text: string, n: nat): Sheet
    requires n <= |text|
  {
    if n == 0 then Sheet([], [], "") else Marked(SheetUpTo(text, n - 1), MarkAt(text, n - 1))
  }

  // The machine stands before position i, and not between the two quotes of a pair.
  ghost predicate StandsAt(text: string, i: nat, m: Machine)
    requires i <= |text|
  {
    && SheetUpTo(text, i) == Sheet(m.rows, m.row, m.field) && m.inQuotes == Inside(text, i)
    && (i > 0 && !m.inQuotes && text[i - 1] == '"' && i < |text| ==> text[i] != '"')
  }

  lemma InsideNext(text: string, i: nat)
    requires i < |text|
    ensures Inside(text, i + 1) <==> (if text[i] == '"' then !Inside(text, i) else Inside(text, i))
  {
    assert text[..i + 1][..i] == text[..i];
  }

  // Two quotes within a quoted cell are one quote of text.
  lemma PairMarks(text: string, i: nat)
    requires i + 1 < |text| && Inside(text, i) && text[i] == text[i + 1] == '"'
    ensures SheetUpTo(text, i + 2) == SheetUpTo(text, i).(cell := SheetUpTo(text, i).cell + ['"'])
  {
    InsideNext(text, i);
    assert MarkAt(text, i) == Nothing && SheetUpTo(text, i + 1) == SheetUpTo(text, i);
    assert MarkAt(text, i + 1) == Literal('"');
  }

  lemma {:induction false} ScanMarks(text: string, i: nat, m: Machine)
    requires i <= |text| && StandsAt(text, i, m)
    ensures
      var end := Scan(text[i..], m);
      SheetUpTo(text, |text|) == Sheet(end.rows, end.row, end.field)
    decreases |text| - i
  {
    if i < |text| {
      hide Inside;
      assert text[i..][1..] == text[i + 1..];
      InsideNext(text, i);
      if m.inQuotes && text[i] == '"' && i + 1 < |text| && text[i + 1] == '"' {
        assert text[i..][2..] == text[i + 2..];
        InsideNext(text, i + 1);
        PairMarks(text, i);
        ScanMarks(text, i + 2, m.(field := m.field + "\""));
      } else {
        ScanMarks(text, i + 1, Scanned(text[i], m));
        ScanOne(text, i, m);
      }
    }
  }

  // The machine after one character that is not the first of a pair of quotes.
  function Scanned(c: char, m: Machine): Machine {
    if c == '"' then m.(inQuotes := !m.inQuotes)
    else if m.inQuotes then m.(field := m.field + [c])
    else if c == ',' then m.(row := m.row + [m.field], field := "")
    else if c == '\r' then m
    else if c == '\n' then Machine(m.rows + [m.row + [m.field]], [], "", false)
    else m.(field := m.field + [c])
  }

  lemma ScanOne(text: string, i: nat, m: Machine)
    requires i < |text|
    requires !(m.inQuotes && text[i] == '"' && i + 1 < |text| && text[i + 1] == '"')
    ensures Scan(text[i..], m) == Scan(text[i + 1..], Scanned(text[i], m))
  {
    assert text[i..][1..] == text[i + 1..] && text[i..][0] == text[i];
    if |text[i..]| > 1 {
      assert text[i..][1] == text[i + 1];
    }
  }

  /** What the parser makes of any text at all, although it looks ahead and jumps: it reads every
      character by the number of quotes before it.  A quote is text exactly if an even number of quotes
      stands before it, one of them right before it.  Within an odd number everything else is text.
      Outside, commas end cells, line feeds end rows and carriage returns are dropped.  What is left
      at the end is a last row, unless it is one empty cell. */
  lemma ParserCountsQuotes(input: string)
    ensures
      var text := if input != "" && input[0] == '\U{FEFF}' then input[1..] else input;
      var end := SheetUpTo(text, |text|);
      Parsed(input) == if end.row == [] && end.cell == "" then end.rows else end.rows + [end.row + [end.cell]]
  {
    var text := WithoutBom(input);
    assert text[0..] == text;
    ScanMarks(text, 0, START);
  }
}
