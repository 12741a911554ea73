/**
 * The text that `exportToCSV` puts in its download: a byte order mark, the
 * header line, and one line per report line, joined by a line feed with no
 * newline at the end. Cells are joined by commas; the date and the product
 * name are wrapped in double quotes with nothing escaped, and the numbers are
 * written bare. The application has no reader for that text; the reader
 * here reads cells as RFC 4180 (section 2) does, where a quoted cell runs to
 * its closing quote and `""` inside it stands for `"`, and shows which
 * lines the export keeps and which it loses.
 */
module ReportCsv {
  import opened Common
  import opened Text
  import opened Report

  const Bom: char := '\U{FEFF}'

  const Headers: seq<string> := ["Tanggal", "Produk", "Qty", "Pendapatan", "Biaya Bahan", "Biaya Lain", "Laba"]

  function HeaderLine(): string
  {
    Join(Headers, ',')
  }

  /** `"${s}"`: the text between double quotes, as it is. */
  function Quote(s: string): (r: string)
    ensures |r| == |s| + 2 && r[0] == '"' && r[|r| - 1] == '"' && r[1..|r| - 1] == s
  {
    "\"" + s + "\""
  }

  /** A number in an array that is joined; a missing one is written as nothing. */
  function NumberCell(n: Option<int>): string
  {
    if n.Some? then IntToString(n.value) else ""
  }

  /** The seven cells of a line, in the header's order. */
  function Cells(l: Line): (r: seq<string>)
    ensures |r| == |Headers|
  {
    [Quote(l.date), Quote(l.productName), NumberCell(l.quantity),
     IntToString(l.revenue), IntToString(l.materialCost), IntToString(l.otherCost), IntToString(l.profit)]
  }

  function Row(l: Line): string
  {
    Join(Cells(l), ',')
  }

  function Rows(lines: seq<Line>): (r: seq<string>)
    ensures |r| == |lines| && forall i :: 0 <= i < |lines| ==> r[i] == Row(lines[i])
  {
    seq(|lines|, i requires 0 <= i < |lines| => Row(lines[i]))
  }

  /** `'\uFEFF' + [headers.join(','), ...rows].join('\n')`. */
  function CsvText(lines: seq<Line>): (r: string)
    ensures |r| > 0 && r[0] == Bom
  {
    [Bom] + Join([HeaderLine()] + Rows(lines), '\n')
  }

  // ---------------------------------------------------------------------------
  // Reading the text back
  // ---------------------------------------------------------------------------

  /** What a line of the file holds; the order id is not written. */
  datatype Record = Record(
    date: string,
    productName: string,
    quantity: Option<int>,
    revenue: int,
    materialCost: int,
    otherCost: int,
    profit: int)

  function RecordOf(l: Line): Record
  {
    Record(l.date, l.productName, l.quantity, l.revenue, l.materialCost, l.otherCost, l.profit)
  }

  function RecordsOf(lines: seq<Line>): (r: seq<Record>)
    ensures |r| == |lines| && forall i :: 0 <= i < |lines| ==> r[i] == RecordOf(lines[i])
  {
    seq(|lines|, i requires 0 <= i < |lines| => RecordOf(lines[i]))
  }

  /**
   * The rest of a quoted cell, after its opening quote: the text up to the
   * closing quote, where `""` stands for one `"`, and what follows the
   * closing quote. `None` when the quote is never closed.
   */
  function ReadQuoted(s: string): (r: Option<(string, string)>)
    ensures r.Some? ==> |r.value.1| < |s|
    decreases |s|
  {
    if s == [] then None
    else if s[0] == '"' then
      if |s| > 1 && s[1] == '"' then
        match ReadQuoted(s[2..])
        case Some((text, rest)) => Some(("\"" + text, rest))
        case None => None
      else Some(("", s[1..]))
    else
      match ReadQuoted(s[1..])
      case Some((text, rest)) => Some(([s[0]] + text, rest))
      case None => None
  }

  /** A cell without quotes: the text up to the next comma; a quote in it makes the row unreadable. */
  function ReadBare(s: string): (r: Option<(string, string)>)
    ensures r.Some? ==> |r.value.1| <= |s| && (r.value.1 == [] || r.value.1[0] == ',')
    decreases |s|
  {
    if s == [] || s[0] == ',' then Some(("", s))
    else if s[0] == '"' then None
    else
      match ReadBare(s[1..])
      case Some((text, rest)) => Some(([s[0]] + text, rest))
      case None => None
  }

  /** The first cell of `s` and what follows it, read as RFC 4180 (section 2, rules 5 to 7) reads a field. */
  function ReadCell(s: string): (r: Option<(string, string)>)
    ensures r.Some? ==> |r.value.1| <= |s|
  {
    if s != [] && s[0] == '"' then ReadQuoted(s[1..]) else ReadBare(s)
  }

  /** The cells of a row: cells separated by commas, each ending at a comma or at the end. */
  function ReadCells(s: string): Option<seq<string>>
    decreases |s|
  {
    match ReadCell(s)
    case None => None
    case Some((cell, rest)) =>
      if rest == [] then Some([cell])
      else if rest[0] != ',' then None
      else
        match ReadCells(rest[1..])
        case Some(cells) => Some([cell] + cells)
        case None => None
  }

  /** A quantity cell: empty for a missing quantity. */
  function ReadQuantity(cell: string): Option<Option<int>>
  {
    if cell == "" then Some(None)
    else match ParseDecimal(cell)
      case Some(n) => Some(Some(n))
      case None => None
  }

  function ReadRow(row: string): Option<Record>
  {
    match ReadCells(row)
    case None => None
    case Some(c) =>
      if |c| != 7 then None
      else
        var quantity := ReadQuantity(c[2]);
        var revenue, material, other, profit := ParseDecimal(c[3]), ParseDecimal(c[4]), ParseDecimal(c[5]), ParseDecimal(c[6]);
        if quantity.Some? && revenue.Some? && material.Some? && other.Some? && profit.Some? then
          Some(Record(c[0], c[1], quantity.value, revenue.value, material.value, other.value, profit.value))
        else None
  }

  function ReadRows(rows: seq<string>): Option<seq<Record>>
  {
    if rows == [] then Some([])
    else match (ReadRows(rows[..|rows| - 1]), ReadRow(rows[|rows| - 1]))
      case (Some(rs), Some(r)) => Some(rs + [r])
      case _ => None
  }

  /** The records of a file as `CsvText` writes it; `None` when it is not one. */
  function ReadCsv(text: string): Option<seq<Record>>
  {
    if text == "" || text[0] != Bom then None
    else
      var ls := Split(text[1..], '\n');
      if ls[0] != HeaderLine() then None else ReadRows(ls[1..])
  }

  /**
   * A date or product name the export keeps: the writer escapes nothing, so
   * the text must hold no double quote, and the rows are the text's lines,
   * so it must hold no line feed. Commas are kept by the quotes.
   */
  predicate Plain(s: string)
  {
    '"' !in s && '\n' !in s
  }

  /** `cell` is how the writer puts `text`: between quotes, or bare. */
  predicate Writes(cell: string, text: string)
  {
    || (cell == Quote(text) && '"' !in text)
    || (cell == text && ',' !in text && '"' !in text)
  }

  lemma DigitsAreBare(n: int)
    ensures var s := IntToString(n); ',' !in s && '"' !in s && '\n' !in s
  {
    var s := IntToString(n);
    var d := if n < 0 then Digits(-n) else Digits(n);
    assert forall i :: 0 <= i < |d| ==> IsDigit(d[i]);
    if n < 0 {
      assert forall i :: 1 <= i < |s| ==> s[i] == d[i - 1];
    }
  }

  lemma {:induction false} ReadQuotedOf(t: string, rest: string)
    requires '"' !in t && (rest == [] || rest[0] != '"')
    ensures ReadQuoted(t + "\"" + rest) == Some((t, rest))
    decreases |t|
  {
    var s := t + "\"" + rest;
    if t == [] {
      assert s[0] == '"' && s[1..] == rest;
    } else {
      assert s[0] == t[0] && s[1..] == t[1..] + "\"" + rest;
      ReadQuotedOf(t[1..], rest);
      assert [t[0]] + t[1..] == t;
    }
  }

  lemma {:induction false} ReadBareOf(t: string, rest: string)
    requires ',' !in t && '"' !in t && (rest == [] || rest[0] == ',')
    ensures ReadBare(t + rest) == Some((t, rest))
    decreases |t|
  {
    if t == [] {
      assert t + rest == rest;
    } else {
      assert (t + rest)[1..] == t[1..] + rest;
      ReadBareOf(t[1..], rest);
      assert [t[0]] + t[1..] == t;
    }
  }

  /** A written cell reads back as its text, up to the comma or the end that follows it. */
  lemma ReadCellOf(cell: string, text: string, rest: string)
    requires Writes(cell, text) && (rest == [] || rest[0] == ',')
    ensures ReadCell(cell + rest) == Some((text, rest))
  {
    if cell == Quote(text) && '"' !in text {
      assert (cell + rest)[1..] == text + "\"" + rest;
      ReadQuotedOf(text, rest);
    } else {
      ReadBareOf(text, rest);
    }
  }

  /** The cells of a written row read back as their texts. */
  lemma {:induction false} ReadCellsOfJoin(cells: seq<string>, texts: seq<string>)
    requires |cells| == |texts| > 0
    requires forall i :: 0 <= i < |cells| ==> Writes(cells[i], texts[i])
    ensures ReadCells(Join(cells, ',')) == Some(texts)
    decreases |cells|
  {
    if |cells| == 1 {
      ReadCellOf(cells[0], texts[0], "");
      assert cells[0] + "" == cells[0];
      ReadCellsStep(cells[0], texts[0], "", []);
      assert texts == [texts[0]];
    } else {
      var rest := [','] + Join(cells[1..], ',');
      assert Join(cells, ',') == cells[0] + rest;
      ReadCellOf(cells[0], texts[0], rest);
      assert rest[1..] == Join(cells[1..], ',');
      forall i | 0 <= i < |cells| - 1 ensures Writes(cells[1..][i], texts[1..][i]) {
        assert cells[1..][i] == cells[i + 1] && texts[1..][i] == texts[i + 1];
      }
      ReadCellsOfJoin(cells[1..], texts[1..]);
      ReadCellsStep(Join(cells, ','), texts[0], rest, texts[1..]);
      assert [texts[0]] + texts[1..] == texts;
    }
  }

  /** A cell followed by nothing, or by a comma and the cells after it. */
  lemma ReadCellsStep(s: string, cell: string, rest: string, after: seq<string>)
    requires ReadCell(s) == Some((cell, rest))
    requires rest == [] || (rest[0] == ',' && ReadCells(rest[1..]) == Some(after))
    ensures ReadCells(s) == Some([cell] + (if rest == [] then [] else after))
  {
    if rest == [] {
      assert [cell] + [] == [cell];
    }
  }

  lemma {:induction false} JoinAvoids(parts: seq<string>, sep: char, c: char)
    requires c != sep && forall i :: 0 <= i < |parts| ==> c !in parts[i]
    ensures c !in Join(parts, sep)
  {
    if |parts| > 1 {
      JoinAvoids(parts[1..], sep, c);
    }
  }

  lemma HeaderHasNoLineFeed()
    ensures '\n' !in HeaderLine()
  {
    JoinAvoids(Headers, ',', '\n');
  }

  /** The texts the cells of a line stand for. */
  function Texts(l: Line): seq<string>
  {
    [l.date, l.productName, NumberCell(l.quantity),
     IntToString(l.revenue), IntToString(l.materialCost), IntToString(l.otherCost), IntToString(l.profit)]
  }

  lemma CellsWrite(l: Line)
    requires Plain(l.date) && Plain(l.productName)
    ensures forall i :: 0 <= i < 7 ==> Writes(Cells(l)[i], Texts(l)[i]) && '\n' !in Cells(l)[i]
  {
    DigitsAreBare(l.revenue);
    DigitsAreBare(l.materialCost);
    DigitsAreBare(l.otherCost);
    DigitsAreBare(l.profit);
    if l.quantity.Some? {
      DigitsAreBare(l.quantity.value);
    }
  }

  lemma RowHasNoLineFeed(l: Line)
    requires Plain(l.date) && Plain(l.productName)
    ensures '\n' !in Row(l)
  {
    CellsWrite(l);
    JoinAvoids(Cells(l), ',', '\n');
  }

  /**
   * A row read back gives the line's record and holds no line break, for
   * any date and product name without a double quote or a line feed; a
   * comma in them is kept by the quotes.
   */
  lemma RowRoundTrip(l: Line)
    requires Plain(l.date) && Plain(l.productName)
    ensures ReadRow(Row(l)) == Some(RecordOf(l))
    ensures '\n' !in Row(l)
  {
    CellsWrite(l);
    ReadCellsOfJoin(Cells(l), Texts(l));
    RowHasNoLineFeed(l);
    TextsRead(l);
  }

  /** The number cells of a line's texts read back as the line's numbers. */
  lemma TextsRead(l: Line)
    ensures var t := Texts(l);
      && ReadQuantity(t[2]) == Some(l.quantity)
      && ParseDecimal(t[3]) == Some(l.revenue) && ParseDecimal(t[4]) == Some(l.materialCost)
      && ParseDecimal(t[5]) == Some(l.otherCost) && ParseDecimal(t[6]) == Some(l.profit)
  {
    var t := Texts(l);
    assert t[3] == IntToString(l.revenue) && t[4] == IntToString(l.materialCost);
    assert t[5] == IntToString(l.otherCost) && t[6] == IntToString(l.profit);
    assert t[2] == NumberCell(l.quantity);
    IntToStringRoundTrip(l.revenue);
    IntToStringRoundTrip(l.materialCost);
    IntToStringRoundTrip(l.otherCost);
    IntToStringRoundTrip(l.profit);
    if l.quantity.Some? {
      IntToStringRoundTrip(l.quantity.value);
    }
  }

  /**
   * A double quote in a product name is not doubled, so a reader takes it
   * for the end of the cell: a name with a quote that is followed by
   * anything but a quote or a comma makes its row unreadable.
   */
  lemma QuoteInNameIsLost(l: Line, x: string, y: string)
    requires Plain(l.date) && l.productName == x + "\"" + y && '"' !in x
    requires y != [] && y[0] != '"' && y[0] != ','
    ensures ReadRow(Row(l)) == None
    ensures ReadRow(Row(l)) != Some(RecordOf(l))
  {
    var c := Cells(l);
    var second := Join(c[1..], ',');
    var after := y + "\"" + [','] + Join(c[2..], ',');
    assert second[0] == '"' && second[1..] == x + "\"" + after by {
      assert c[1..][1..] == c[2..];
      assert second == c[1] + [','] + Join(c[2..], ',');
    }
    ReadQuotedOf(x, after);
    assert ReadCell(second) == Some((x, after));
    assert after != [] && after[0] == y[0];
    assert ReadCells(second) == None;
    var rest := [','] + second;
    assert Row(l) == c[0] + rest;
    ReadCellOf(c[0], l.date, rest);
    assert ReadCell(Row(l)) == Some((l.date, rest));
    assert rest[1..] == second;
    assert ReadCells(Row(l)) == None;
  }

  lemma {:induction false} RowsRoundTrip(lines: seq<Line>)
    requires forall i :: 0 <= i < |lines| ==> Plain(lines[i].date) && Plain(lines[i].productName)
    ensures ReadRows(Rows(lines)) == Some(RecordsOf(lines))
    decreases |lines|
  {
    if lines != [] {
      var init := lines[..|lines| - 1];
      assert Rows(lines)[..|lines| - 1] == Rows(init);
      assert RecordsOf(lines) == RecordsOf(init) + [RecordOf(lines[|lines| - 1])];
      RowsRoundTrip(init);
      RowRoundTrip(lines[|lines| - 1]);
    }
  }

  /** The text after the mark is the header line and then one line per report line. */
  lemma CsvLines(lines: seq<Line>)
    requires forall i :: 0 <= i < |lines| ==> Plain(lines[i].date) && Plain(lines[i].productName)
    ensures Split(CsvText(lines)[1..], '\n') == [HeaderLine()] + Rows(lines)
  {
    var parts := [HeaderLine()] + Rows(lines);
    HeaderHasNoLineFeed();
    forall i | 0 <= i < |parts| ensures '\n' !in parts[i] {
      if i > 0 {
        assert parts[i] == Row(lines[i - 1]);
        RowHasNoLineFeed(lines[i - 1]);
      }
    }
    SplitJoin(parts, '\n');
    assert CsvText(lines)[1..] == Join(parts, '\n');
  }

  /**
   * Reading the exported text gives back, in order, every line's date,
   * product name, quantity and four amounts, provided no date or product
   * name holds a double quote or a line feed (nothing is escaped). Commas
   * are kept, inside the quotes.
   */
  lemma CsvRoundTrip(lines: seq<Line>)
    requires forall i :: 0 <= i < |lines| ==> Plain(lines[i].date) && Plain(lines[i].productName)
    ensures ReadCsv(CsvText(lines)) == Some(RecordsOf(lines))
  {
    CsvLines(lines);
    assert ([HeaderLine()] + Rows(lines))[1..] == Rows(lines);
    RowsRoundTrip(lines);
  }
}
