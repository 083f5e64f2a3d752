/** The document agent: choosing an extractor by file extension, turning
    what a parsing library read from the file into plain text, rejecting
    uploads with too little text, and saving the rest with the language
    model's structured version.

    The parsing libraries themselves are not modelled: a `Library` gives,
    for each format, the pages, paragraphs, rows or element tree the
    library would read from the uploaded file, or the text of the error an
    extractor raises when reading fails. */
module Documents {
  import opened Common
  import Store
  import Gemini

  // ---------------------------------------------------------------------
  // File names and routing

  /** `os.path.basename(path)`: the text after the last '/'. */
  function Basename(path: string): (r: string)
    ensures '/' !in r
    ensures |r| <= |path| && r == path[|path| - |r|..]
    ensures |r| < |path| ==> path[|path| - |r| - 1] == '/'
  {
    if '/' in path then path[LastIndex(path, '/') + 1..] else path
  }

  /** `name.rsplit('.', 1)[1].lower()` when the name holds a '.', else ''. */
  function Extension(filename: string): string
  {
    if '.' in filename then Lower(filename[LastIndex(filename, '.') + 1..]) else ""
  }

  datatype Format = Pdf | Txt | Docx | Xlsx | Xls | Csv | Json | Md | Xml

  /** The extractor the if-chain of `process_document` picks, if any. */
  function FormatOf(extension: string): Option<Format>
  {
    if extension == "pdf" then Some(Pdf)
    else if extension == "txt" then Some(Txt)
    else if extension == "docx" then Some(Docx)
    else if extension == "xlsx" then Some(Xlsx)
    else if extension == "xls" then Some(Xls)
    else if extension == "csv" then Some(Csv)
    else if extension == "json" then Some(Json)
    else if extension == "md" then Some(Md)
    else if extension == "xml" then Some(Xml)
    else None
  }

  /** The nine extensions uploads may carry. */
  const SupportedExtensions: set<string> := {"pdf", "txt", "docx", "xlsx", "xls", "csv", "json", "md", "xml"}

  /** The extension is empty exactly when the name has no '.' or ends in
      one, and it never holds a '.' itself. */
  lemma ExtensionShape(filename: string)
    ensures Extension(filename) == "" <==> '.' !in filename || filename[|filename| - 1] == '.'
    ensures '.' !in Extension(filename)
  {
    if '.' in filename {
      var i := LastIndex(filename, '.');
      ExtensionEmptyIff(filename, i);
      ExtensionHasNoDot(filename[i + 1..]);
    }
  }

  /** Whatever comes before the last '.', the extension is the lowercased
      text after it. */
  lemma ExtensionOfSplit(stem: string, raw: string)
    requires '.' !in raw
    ensures Extension(stem + "." + raw) == Lower(raw)
  {
    var filename := stem + "." + raw;
    assert filename[|stem|] == '.';
    assert filename[|stem| + 1..] == raw;
  }

  lemma ExtensionEmptyIff(filename: string, i: nat)
    requires '.' in filename && i == LastIndex(filename, '.')
    ensures |filename[i + 1..]| == 0 <==> filename[|filename| - 1] == '.'
  {
    if i < |filename| - 1 {
      assert filename[|filename| - 1] in filename[i + 1..];
    }
  }

  lemma ExtensionHasNoDot(raw: string)
    requires '.' !in raw
    ensures '.' !in Lower(raw)
  {
    var e := Lower(raw);
    forall k | 0 <= k < |e| ensures e[k] != '.' {
      assert e[k] == LowerChar(raw[k]) && raw[k] != '.';
    }
  }

  /** The routing accepts exactly the nine supported extensions. */
  lemma RoutedIffSupported(extension: string)
    ensures FormatOf(extension).Some? <==> extension in SupportedExtensions
  {
  }

  // ---------------------------------------------------------------------
  // What the parsing libraries read

  /** An XML element: tag, attributes in document order, the text before
      the first child (if any) and the children in order. */
  datatype Element = Element(tag: string, attributes: seq<(string, string)>, text: Option<string>, children: seq<Element>)

  /** A spreadsheet cell: empty, or a value with its `str()` text and its
      Python truth value (0, 0.0 and '' are false). */
  datatype Cell = Blank | Value(text: string, truthy: bool)

  /** openpyxl renders every non-empty cell; xlrd renders only true values. */
  datatype SheetReader = OpenPyxl | Xlrd

  /** `.xls` files are read by xlrd, `.xlsx` files by openpyxl. */
  function ReaderOf(format: Format): SheetReader
  {
    if format == Xls then Xlrd else OpenPyxl
  }

  datatype Sheet = Sheet(name: string, rows: seq<seq<Cell>>)

  datatype Loaded =
    | PdfPages(pages: seq<string>)
    | PlainText(text: string)
    | DocxBody(paragraphs: seq<string>, tables: seq<seq<seq<string>>>)
    | Workbook(sheets: seq<Sheet>)
    | CsvRows(rows: seq<seq<string>>)
    | XmlRoot(root: Element)
    | Unreadable(message: string)

  /** The shape the library of each format reads, or the error it raises. */
  predicate Fits(format: Format, loaded: Loaded)
  {
    loaded.Unreadable? ||
    match format
    case Pdf => loaded.PdfPages?
    case Txt | Json | Md => loaded.PlainText?
    case Docx => loaded.DocxBody?
    case Xlsx | Xls => loaded.Workbook?
    case Csv => loaded.CsvRows?
    case Xml => loaded.XmlRoot?
  }

  /** What the library for each format reads from the uploaded file. */
  type Library = library: Format -> Loaded | forall f :: Fits(f, library(f))
    witness (f: Format) => Unreadable("")

  // ---------------------------------------------------------------------
  // PDF

  /** Every page's text followed by a blank line. */
  function PdfRaw(pages: seq<string>): string
  {
    if pages == [] then "" else PdfRaw(pages[..|pages| - 1]) + pages[|pages| - 1] + "\n\n"
  }

  function PdfText(pages: seq<string>): string
  {
    Strip(PdfRaw(pages))
  }

  method ExtractPdf(pages: seq<string>) returns (text: string)
    ensures text == PdfText(pages)
  {
    var raw := "";
    var i := 0;
    while i < |pages|
      invariant i <= |pages|
      invariant raw == PdfRaw(pages[..i])
    {
      assert pages[..i + 1][..i] == pages[..i];
      raw := raw + pages[i] + "\n\n";
      i := i + 1;
    }
    assert pages[..i] == pages;
    text := Strip(raw);
  }

  /** The concatenated pages are blank exactly when every page is. */
  lemma {:induction false} PdfRawBlank(pages: seq<string>)
    ensures (forall i :: 0 <= i < |PdfRaw(pages)| ==> IsSpace(PdfRaw(pages)[i]))
        <==> (forall p, i :: p in pages && 0 <= i < |p| ==> IsSpace(p[i]))
  {
    if pages != [] {
      var init := pages[..|pages| - 1];
      var last := pages[|pages| - 1];
      PdfRawBlank(init);
      var raw := PdfRaw(pages);
      var a := PdfRaw(init);
      assert raw == a + last + "\n\n";
      if forall p, i :: p in pages && 0 <= i < |p| ==> IsSpace(p[i]) {
        forall i | 0 <= i < |raw| ensures IsSpace(raw[i]) {
          if i < |a| {
            assert raw[i] == a[i];
          } else if i < |a| + |last| {
            assert raw[i] == last[i - |a|];
          }
        }
      }
      if forall i :: 0 <= i < |raw| ==> IsSpace(raw[i]) {
        forall i | 0 <= i < |a| ensures IsSpace(a[i]) {
          assert raw[i] == a[i];
        }
        forall p, i | p in pages && 0 <= i < |p| ensures IsSpace(p[i]) {
          if p == last {
            assert raw[|a| + i] == last[i];
          } else {
            assert p in init;
          }
        }
      }
    }
  }

  /** A PDF yields no text exactly when every page's text is blank. */
  lemma PdfTextEmptyIffBlank(pages: seq<string>)
    ensures PdfText(pages) == "" <==> forall p, i :: p in pages && 0 <= i < |p| ==> IsSpace(p[i])
  {
    var raw := PdfRaw(pages);
    PdfRawBlank(pages);
    StripShape(raw);
    var rawBlank := forall i :: 0 <= i < |raw| ==> IsSpace(raw[i]);
    assert PdfText(pages) == Strip(raw);
    assert Strip(raw) == "" <==> rawBlank;
  }

  // ---------------------------------------------------------------------
  // DOCX

  /** The paragraphs whose stripped text is not empty, unstripped. */
  function KeptParagraphs(paragraphs: seq<string>): seq<string>
  {
    if paragraphs == [] then []
    else
      var last := paragraphs[|paragraphs| - 1];
      KeptParagraphs(paragraphs[..|paragraphs| - 1]) + (if Strip(last) != "" then [last] else [])
  }

  function StripAll(cells: seq<string>): (r: seq<string>)
    ensures |r| == |cells| && forall i :: 0 <= i < |cells| ==> r[i] == Strip(cells[i])
  {
    if cells == [] then [] else StripAll(cells[..|cells| - 1]) + [Strip(cells[|cells| - 1])]
  }

  /** One line per table row: the stripped cells joined by ' | '. */
  function TableRowLines(rows: seq<seq<string>>): (r: seq<string>)
    ensures |r| == |rows|
  {
    if rows == [] then []
    else TableRowLines(rows[..|rows| - 1]) + [Join(StripAll(rows[|rows| - 1]), " | ")]
  }

  function TablesLines(tables: seq<seq<seq<string>>>): seq<string>
  {
    if tables == [] then [] else TablesLines(tables[..|tables| - 1]) + TableRowLines(tables[|tables| - 1])
  }

  function DocxText(paragraphs: seq<string>, tables: seq<seq<seq<string>>>): string
  {
    Join(KeptParagraphs(paragraphs) + TablesLines(tables), "\n\n")
  }

  method CollectParagraphs(paragraphs: seq<string>) returns (parts: seq<string>)
    ensures parts == KeptParagraphs(paragraphs)
  {
    parts := [];
    var i := 0;
    while i < |paragraphs|
      invariant i <= |paragraphs|
      invariant parts == KeptParagraphs(paragraphs[..i])
    {
      assert paragraphs[..i + 1][..i] == paragraphs[..i];
      if Strip(paragraphs[i]) != "" {
        parts := parts + [paragraphs[i]];
      }
      i := i + 1;
    }
    assert paragraphs[..i] == paragraphs;
  }

  method CollectTableRows(tables: seq<seq<seq<string>>>) returns (lines: seq<string>)
    ensures lines == TablesLines(tables)
  {
    lines := [];
    var t := 0;
    while t < |tables|
      invariant t <= |tables|
      invariant lines == TablesLines(tables[..t])
    {
      assert tables[..t + 1][..t] == tables[..t];
      var rows := tables[t];
      var k := 0;
      while k < |rows|
        invariant k <= |rows|
        invariant lines == TablesLines(tables[..t]) + TableRowLines(rows[..k])
      {
        assert rows[..k + 1][..k] == rows[..k];
        lines := lines + [Join(StripAll(rows[k]), " | ")];
        k := k + 1;
      }
      assert rows[..k] == rows;
      t := t + 1;
    }
    assert tables[..t] == tables;
  }

  method ExtractDocx(paragraphs: seq<string>, tables: seq<seq<seq<string>>>) returns (text: string)
    ensures text == DocxText(paragraphs, tables)
  {
    var kept := CollectParagraphs(paragraphs);
    var rowLines := CollectTableRows(tables);
    text := Join(kept + rowLines, "\n\n");
  }

  /** A paragraph is kept exactly when it is not blank, and kept as written. */
  lemma {:induction false} KeptIffNonBlank(paragraphs: seq<string>, p: string)
    ensures p in KeptParagraphs(paragraphs) <==> p in paragraphs && Strip(p) != ""
  {
    if paragraphs != [] {
      var init := paragraphs[..|paragraphs| - 1];
      KeptIffNonBlank(init, p);
      assert paragraphs == init + [paragraphs[|paragraphs| - 1]];
    }
  }

  // ---------------------------------------------------------------------
  // CSV

  /** `c * n` for a one-character string. */
  function Repeat(c: char, n: nat): (r: string)
    ensures |r| == n && forall i :: 0 <= i < n ==> r[i] == c
  {
    if n == 0 then "" else Repeat(c, n - 1) + [c]
  }

  const Dashes := Repeat('-', 50)

  /** The header line and the dashes, when the first row is not empty. */
  function CsvHeaderLines(rows: seq<seq<string>>): seq<string>
  {
    if rows != [] && rows[0] != [] then ["Headers: " + Join(rows[0], " | "), Dashes] else []
  }

  /** One ' | '-joined line per non-empty row. */
  function CsvDataLines(rows: seq<seq<string>>): seq<string>
  {
    if rows == [] then []
    else
      var last := rows[|rows| - 1];
      CsvDataLines(rows[..|rows| - 1]) + (if last != [] then [Join(last, " | ")] else [])
  }

  /** `next(reader, None)` takes the first row, whether or not it is used. */
  function CsvText(rows: seq<seq<string>>): string
  {
    Join(CsvHeaderLines(rows) + CsvDataLines(if rows == [] then [] else rows[1..]), "\n")
  }

  method ExtractCsv(rows: seq<seq<string>>) returns (text: string)
    ensures text == CsvText(rows)
  {
    var lines: seq<string> := [];
    if |rows| > 0 && rows[0] != [] {
      lines := ["Headers: " + Join(rows[0], " | "), Dashes];
    }
    var data := if rows == [] then [] else rows[1..];
    var i := 0;
    while i < |data|
      invariant i <= |data|
      invariant lines == CsvHeaderLines(rows) + CsvDataLines(data[..i])
    {
      assert data[..i + 1][..i] == data[..i];
      if data[i] != [] {
        lines := lines + [Join(data[i], " | ")];
      }
      i := i + 1;
    }
    assert data[..i] == data;
    text := Join(lines, "\n");
  }

  lemma {:induction false} CsvDataAppend(a: seq<seq<string>>, b: seq<seq<string>>)
    ensures CsvDataLines(a + b) == CsvDataLines(a) + CsvDataLines(b)
    decreases |b|
  {
    if b != [] {
      var init := b[..|b| - 1];
      var last := b[|b| - 1];
      var tail := if last != [] then [Join(last, " | ")] else [];
      CsvDataAppend(a, init);
      assert (a + b)[..|a + b| - 1] == a + init;
      calc {
        CsvDataLines(a + b);
        CsvDataLines(a + init) + tail;
        (CsvDataLines(a) + CsvDataLines(init)) + tail;
        CsvDataLines(a) + (CsvDataLines(init) + tail);
      }
    } else {
      assert a + b == a;
    }
  }

  /** The first two lines of a join are its first two parts. */
  lemma JoinStartsWithTwo(parts: seq<string>, sep: string)
    requires |parts| >= 2
    ensures StartsWith(Join(parts, sep), parts[0] + sep + parts[1])
  {
    var rest := Join(parts[1..], sep);
    assert Join(parts, sep) == parts[0] + sep + rest;
    assert StartsWith(rest, parts[1]) by {
      if |parts| > 2 {
        assert rest == parts[1] + sep + Join(parts[2..], sep);
      }
    }
    assert (parts[0] + sep + rest)[..|parts[0] + sep + parts[1]|] == parts[0] + sep + rest[..|parts[1]|];
  }

  /** A non-empty first row makes the text open with 'Headers: ' and its
      cells joined by ' | ', then a line of fifty dashes. */
  lemma CsvHeaderShape(rows: seq<seq<string>>)
    requires rows != [] && rows[0] != []
    ensures StartsWith(CsvText(rows), "Headers: " + Join(rows[0], " | ") + "\n" + Dashes)
    ensures |Dashes| == 50 && forall i :: 0 <= i < 50 ==> Dashes[i] == '-'
  {
    var lines := CsvHeaderLines(rows) + CsvDataLines(rows[1..]);
    assert lines[0] == "Headers: " + Join(rows[0], " | ") && lines[1] == Dashes;
    JoinStartsWithTwo(lines, "\n");
  }

  /** An empty row after the header changes nothing in the text. */
  lemma CsvSkipsEmptyRow(rows: seq<seq<string>>, k: nat)
    requires 1 <= k <= |rows|
    ensures CsvText(rows[..k] + [[]] + rows[k..]) == CsvText(rows)
  {
    var empty: seq<seq<string>> := [[]];
    var front := rows[1..k];
    var back := rows[k..];
    var longer := rows[..k] + empty + back;
    assert longer[0] == rows[0];
    assert longer[1..] == front + empty + back;
    assert rows[1..] == front + back;
    assert CsvDataLines(empty) == [] by {
      assert empty[..0] == [];
    }
    CsvDataAppend(front + empty, back);
    CsvDataAppend(front, empty);
    CsvDataAppend(front, back);
    assert CsvDataLines(longer[1..]) == CsvDataLines(rows[1..]);
    assert CsvHeaderLines(longer) == CsvHeaderLines(rows);
    assert longer == rows[..k] + [[]] + rows[k..];
  }

  // ---------------------------------------------------------------------
  // Spreadsheets

  /** `str(cell) if cell is not None else ""` for openpyxl;
      `str(cell.value) if cell.value else ""` for xlrd. */
  function CellText(reader: SheetReader, cell: Cell): string
  {
    match cell
    case Blank => ""
    case Value(text, truthy) => if reader == OpenPyxl || truthy then text else ""
  }

  function RowValues(reader: SheetReader, row: seq<Cell>): (r: seq<string>)
    ensures |r| == |row| && forall i :: 0 <= i < |row| ==> r[i] == CellText(reader, row[i])
  {
    if row == [] then [] else RowValues(reader, row[..|row| - 1]) + [CellText(reader, row[|row| - 1])]
  }

  /** `any(row_values)` */
  predicate AnyFilled(values: seq<string>)
  {
    exists i :: 0 <= i < |values| && values[i] != ""
  }

  function SheetRowLines(reader: SheetReader, rows: seq<seq<Cell>>): seq<string>
  {
    if rows == [] then []
    else
      var values := RowValues(reader, rows[|rows| - 1]);
      SheetRowLines(reader, rows[..|rows| - 1]) + (if AnyFilled(values) then [Join(values, " | ")] else [])
  }

  function SheetTitle(name: string): string
  {
    "=== Sheet: " + name + " ==="
  }

  function WorkbookLines(reader: SheetReader, sheets: seq<Sheet>): seq<string>
  {
    if sheets == [] then []
    else
      var last := sheets[|sheets| - 1];
      WorkbookLines(reader, sheets[..|sheets| - 1]) + [SheetTitle(last.name), ""] + SheetRowLines(reader, last.rows) + [""]
  }

  function WorkbookText(reader: SheetReader, sheets: seq<Sheet>): string
  {
    Join(WorkbookLines(reader, sheets), "\n")
  }

  method CollectSheetRows(reader: SheetReader, rows: seq<seq<Cell>>) returns (lines: seq<string>)
    ensures lines == SheetRowLines(reader, rows)
  {
    lines := [];
    var r := 0;
    while r < |rows|
      invariant r <= |rows|
      invariant lines == SheetRowLines(reader, rows[..r])
    {
      assert rows[..r + 1][..r] == rows[..r];
      var values := RowValues(reader, rows[r]);
      if AnyFilled(values) {
        lines := lines + [Join(values, " | ")];
      }
      r := r + 1;
    }
    assert rows[..r] == rows;
  }

  method ExtractWorkbook(reader: SheetReader, sheets: seq<Sheet>) returns (text: string)
    ensures text == WorkbookText(reader, sheets)
  {
    var lines: seq<string> := [];
    var s := 0;
    while s < |sheets|
      invariant s <= |sheets|
      invariant lines == WorkbookLines(reader, sheets[..s])
    {
      assert sheets[..s + 1][..s] == sheets[..s];
      var sheet := sheets[s];
      var rowLines := CollectSheetRows(reader, sheet.rows);
      lines := lines + [SheetTitle(sheet.name), ""] + rowLines + [""];
      s := s + 1;
    }
    assert sheets[..s] == sheets;
    text := Join(lines, "\n");
  }

  lemma {:induction false} SheetRowsAppend(reader: SheetReader, a: seq<seq<Cell>>, b: seq<seq<Cell>>)
    ensures SheetRowLines(reader, a + b) == SheetRowLines(reader, a) + SheetRowLines(reader, b)
    decreases |b|
  {
    if b != [] {
      var init := b[..|b| - 1];
      var values := RowValues(reader, b[|b| - 1]);
      var tail := if AnyFilled(values) then [Join(values, " | ")] else [];
      SheetRowsAppend(reader, a, init);
      assert (a + b)[..|a + b| - 1] == a + init;
      calc {
        SheetRowLines(reader, a + b);
        SheetRowLines(reader, a + init) + tail;
        (SheetRowLines(reader, a) + SheetRowLines(reader, init)) + tail;
        SheetRowLines(reader, a) + (SheetRowLines(reader, init) + tail);
      }
    } else {
      assert a + b == a;
    }
  }

  /** A row whose cells all render empty adds no line. */
  lemma BlankRowDropped(reader: SheetReader, rows: seq<seq<Cell>>, k: nat, row: seq<Cell>)
    requires k <= |rows|
    requires forall i :: 0 <= i < |row| ==> CellText(reader, row[i]) == ""
    ensures SheetRowLines(reader, rows[..k] + [row] + rows[k..]) == SheetRowLines(reader, rows)
  {
    assert rows == rows[..k] + rows[k..];
    SheetRowsAppend(reader, rows[..k], rows[k..]);
    SheetRowsAppend(reader, rows[..k] + [row], rows[k..]);
    SheetRowsAppend(reader, rows[..k], [row]);
    assert !AnyFilled(RowValues(reader, row));
    assert SheetRowLines(reader, [row]) == [];
  }

  /** A row with some rendered cell adds exactly its ' | '-joined values,
      in place. */
  lemma FilledRowKept(reader: SheetReader, rows: seq<seq<Cell>>, k: nat, row: seq<Cell>, i: nat)
    requires k <= |rows|
    requires i < |row| && CellText(reader, row[i]) != ""
    ensures SheetRowLines(reader, rows[..k] + [row] + rows[k..])
      == SheetRowLines(reader, rows[..k]) + [Join(RowValues(reader, row), " | ")] + SheetRowLines(reader, rows[k..])
  {
    SheetRowsAppend(reader, rows[..k] + [row], rows[k..]);
    SheetRowsAppend(reader, rows[..k], [row]);
    assert RowValues(reader, row)[i] != "";
    assert SheetRowLines(reader, [row]) == [Join(RowValues(reader, row), " | ")];
  }

  /** Each sheet is framed by its title and a blank line before its rows
      and a blank line after them. */
  lemma SheetFraming(reader: SheetReader, sheets: seq<Sheet>, sheet: Sheet)
    ensures var before := WorkbookLines(reader, sheets);
      var after := WorkbookLines(reader, sheets + [sheet]);
      var n := |SheetRowLines(reader, sheet.rows)|;
      |after| == |before| + n + 3 && after[..|before|] == before
      && after[|before|] == "=== Sheet: " + sheet.name + " ===" && after[|before| + 1] == ""
      && after[|before| + 2..|before| + 2 + n] == SheetRowLines(reader, sheet.rows)
      && after[|after| - 1] == ""
  {
    assert (sheets + [sheet])[..|sheets|] == sheets;
  }

  /** Every falsy value (a zero, an empty string, False) is rendered by
      openpyxl and dropped by xlrd. */
  lemma ZeroCellReaders()
    ensures forall t :: CellText(OpenPyxl, Value(t, false)) == t
    ensures forall t :: CellText(Xlrd, Value(t, false)) == ""
  {
  }

  /** Row by row, the two readers agree on blank and truthy cells and
      differ only on falsy values, which xlrd renders as empty. */
  lemma ReadersAgreeOnRow(row: seq<Cell>)
    ensures |RowValues(OpenPyxl, row)| == |RowValues(Xlrd, row)| == |row|
    ensures forall i :: 0 <= i < |row| && (row[i].Blank? || row[i].truthy) ==>
      RowValues(Xlrd, row)[i] == RowValues(OpenPyxl, row)[i]
    ensures forall i :: 0 <= i < |row| && row[i].Value? && !row[i].truthy ==>
      RowValues(Xlrd, row)[i] == "" && RowValues(OpenPyxl, row)[i] == row[i].text
  {
  }

  // ---------------------------------------------------------------------
  // XML

  /** Two spaces per level of depth. */
  function Indent(level: nat): (r: string)
    ensures |r| == 2 * level && forall i :: 0 <= i < |r| ==> r[i] == ' '
  {
    if level == 0 then "" else Indent(level - 1) + "  "
  }

  function AttributePairs(attributes: seq<(string, string)>): (r: seq<string>)
    ensures |r| == |attributes|
  {
    if attributes == [] then []
    else
      var last := attributes[|attributes| - 1];
      AttributePairs(attributes[..|attributes| - 1]) + [last.0 + "=" + last.1]
  }

  /** 'tag (k=v, ...):' or 'tag:', indented. */
  function TagLine(e: Element, level: nat): string
  {
    Indent(level) + e.tag
      + (if e.attributes == [] then "" else " (" + Join(AttributePairs(e.attributes), ", ") + ")")
      + ":"
  }

  /** The stripped text one level deeper, when it is not blank. */
  function TextLines(e: Element, level: nat): seq<string>
  {
    if e.text.Some? && Strip(e.text.value) != "" then [Indent(level) + "  " + Strip(e.text.value)] else []
  }

  function Flatten(parts: seq<seq<string>>): seq<string>
  {
    if parts == [] then [] else Flatten(parts[..|parts| - 1]) + parts[|parts| - 1]
  }

  /** `extract_from_element(element, level)` */
  function ElementLines(e: Element, level: nat): seq<string>
    decreases e, 1
  {
    [TagLine(e, level)] + TextLines(e, level) + Flatten(ChildParts(e, level))
  }

  function ChildParts(e: Element, level: nat): (r: seq<seq<string>>)
    ensures |r| == |e.children|
    decreases e, 0
  {
    seq(|e.children|, i requires 0 <= i < |e.children| => ElementLines(e.children[i], level + 1))
  }

  function XmlText(root: Element): string
  {
    Join(ElementLines(root, 0), "\n")
  }

  lemma {:induction false} FlattenPrefixed(parts: seq<seq<string>>, prefix: string)
    requires forall i, j :: 0 <= i < |parts| && 0 <= j < |parts[i]| ==> StartsWith(parts[i][j], prefix)
    ensures forall k :: 0 <= k < |Flatten(parts)| ==> StartsWith(Flatten(parts)[k], prefix)
  {
    if parts != [] {
      var init := parts[..|parts| - 1];
      var last := parts[|parts| - 1];
      FlattenPrefixed(init, prefix);
      var f := Flatten(parts);
      var g := Flatten(init);
      forall k | 0 <= k < |f| ensures StartsWith(f[k], prefix) {
        if k < |g| {
          assert f[k] == g[k];
        } else {
          assert f[k] == last[k - |g|];
        }
      }
    }
  }

  /** Every line an element produces is indented at least to its depth. */
  lemma {:induction false} ElementIndented(e: Element, level: nat)
    ensures forall k :: 0 <= k < |ElementLines(e, level)| ==> StartsWith(ElementLines(e, level)[k], Indent(level))
    decreases e
  {
    var parts := ChildParts(e, level);
    forall i, j | 0 <= i < |parts| && 0 <= j < |parts[i]| ensures StartsWith(parts[i][j], Indent(level)) {
      ElementIndented(e.children[i], level + 1);
      assert parts[i] == ElementLines(e.children[i], level + 1);
      assert StartsWith(parts[i][j], Indent(level + 1));
    }
    FlattenPrefixed(parts, Indent(level));
    var lines := ElementLines(e, level);
    var head := [TagLine(e, level)] + TextLines(e, level);
    forall k | 0 <= k < |lines| ensures StartsWith(lines[k], Indent(level)) {
      if k >= |head| {
        assert lines[k] == Flatten(parts)[k - |head|];
      }
    }
  }

  /** The tag line is the only line of an element at the element's own
      depth: its text and all its descendants come one level deeper, and
      each child's lines follow in order. */
  lemma XmlNesting(e: Element, level: nat)
    ensures ElementLines(e, level)[0] == TagLine(e, level)
    ensures forall k :: 1 <= k < |ElementLines(e, level)| ==> StartsWith(ElementLines(e, level)[k], Indent(level + 1))
  {
    var parts := ChildParts(e, level);
    forall i, j | 0 <= i < |parts| && 0 <= j < |parts[i]| ensures StartsWith(parts[i][j], Indent(level + 1)) {
      ElementIndented(e.children[i], level + 1);
      assert parts[i] == ElementLines(e.children[i], level + 1);
    }
    FlattenPrefixed(parts, Indent(level + 1));
    var lines := ElementLines(e, level);
    var head := [TagLine(e, level)] + TextLines(e, level);
    forall k | 1 <= k < |lines| ensures StartsWith(lines[k], Indent(level + 1)) {
      if k >= |head| {
        assert lines[k] == Flatten(parts)[k - |head|];
      }
    }
  }

  // ---------------------------------------------------------------------
  // Processing an upload

  datatype Extraction = Text(text: string) | Failed(message: string)

  /** The text the extractor for `format` makes of what its library read. */
  function Extract(format: Format, loaded: Loaded): Extraction
  {
    match loaded
    case PdfPages(pages) => Text(PdfText(pages))
    case PlainText(text) => Text(text)
    case DocxBody(paragraphs, tables) => Text(DocxText(paragraphs, tables))
    case Workbook(sheets) => Text(WorkbookText(ReaderOf(format), sheets))
    case CsvRows(rows) => Text(CsvText(rows))
    case XmlRoot(root) => Text(XmlText(root))
    case Unreadable(message) => Failed(message)
  }

  method ExtractText(format: Format, loaded: Loaded) returns (e: Extraction)
    ensures e == Extract(format, loaded)
  {
    match loaded
    case PdfPages(pages) =>
      var t := ExtractPdf(pages);
      e := Text(t);
    case PlainText(text) =>
      e := Text(text);
    case DocxBody(paragraphs, tables) =>
      var t := ExtractDocx(paragraphs, tables);
      e := Text(t);
    case Workbook(sheets) =>
      var t := ExtractWorkbook(ReaderOf(format), sheets);
      e := Text(t);
    case CsvRows(rows) =>
      var t := ExtractCsv(rows);
      e := Text(t);
    case XmlRoot(root) =>
      e := Text(XmlText(root));
    case Unreadable(message) =>
      e := Failed(message);
  }

  const InsufficientContent := "File appears to be empty or has insufficient content"

  /** What becomes of an upload, before anything is saved. */
  datatype Intake = Refuse(error: string) | Accept(filename: string, text: string)

  function IntakeOf(filePath: string, library: Library): Intake
  {
    var filename := Basename(filePath);
    var extension := Extension(filename);
    match FormatOf(extension)
    case None => Refuse("Unsupported file format: " + extension)
    case Some(format) =>
      match Extract(format, library(format))
      case Failed(message) => Refuse("Error processing document: " + message)
      case Text(text) =>
        if text == "" || |Strip(text)| < 10 then Refuse(InsufficientContent) else Accept(filename, text)
  }

  /** The dictionary `process_document` returns. */
  datatype Upload = Uploaded(documentId: nat, filename: string, contentLength: nat) | Rejected(error: string)

  /** process_document.  `saveFails` is the error `save_document` raises,
      if it does; the insert is then rolled back and the error is reported
      like any other. */
  method ProcessDocument(db: Store.Database, model: Model, filePath: string, library: Library,
                         saveFails: Option<string>)
    returns (r: Upload)
    requires db.Valid()
    modifies db
    ensures db.Valid()
    ensures IntakeOf(filePath, library).Refuse? ==>
      r == Rejected(IntakeOf(filePath, library).error) && unchanged(db)
    ensures IntakeOf(filePath, library).Accept? && saveFails.Some? ==>
      r == Rejected("Error processing document: " + saveFails.value) && unchanged(db)
    ensures IntakeOf(filePath, library).Accept? && saveFails.None? ==>
      var a := IntakeOf(filePath, library);
      r == Uploaded(|old(db.documents)| + 1, a.filename, |a.text|)
      && db.documents == old(db.documents)
        + [Store.DocumentRow(|old(db.documents)| + 1, a.filename, a.text,
                             Gemini.StructureDocument(model, a.text), old(db.clock), None)]
      && db.clock == old(db.clock) + 1
      && db.conversations == old(db.conversations) && db.messages == old(db.messages)
      && db.actions == old(db.actions) && db.statusWrites == old(db.statusWrites)
  {
    var filename := Basename(filePath);
    var extension := Extension(filename);
    var format := FormatOf(extension);
    if format.None? {
      return Rejected("Unsupported file format: " + extension);
    }
    var extracted := ExtractText(format.value, library(format.value));
    if extracted.Failed? {
      return Rejected("Error processing document: " + extracted.message);
    }
    var text := extracted.text;
    if text == "" || |Strip(text)| < 10 {
      return Rejected(InsufficientContent);
    }
    var structured := Gemini.StructureDocument(model, text);
    if saveFails.Some? {
      return Rejected("Error processing document: " + saveFails.value);
    }
    var id := db.SaveDocument(filename, text, structured);
    r := Uploaded(id, filename, |text|);
  }

  /** An unsupported extension is refused without reading the file. */
  lemma UnsupportedNotRead(filePath: string, library: Library, other: Library)
    requires FormatOf(Extension(Basename(filePath))).None?
    ensures IntakeOf(filePath, library) == IntakeOf(filePath, other)
    ensures IntakeOf(filePath, library) == Refuse("Unsupported file format: " + Extension(Basename(filePath)))
  {
  }

  /** An upload is accepted exactly when its extension is supported, its
      extractor succeeds, and the text holds at least ten characters after
      stripping; the accepted name has no directory part. */
  lemma AcceptedIff(filePath: string, library: Library)
    ensures IntakeOf(filePath, library).Accept? <==>
      var extension := Extension(Basename(filePath));
      FormatOf(extension).Some?
      && Extract(FormatOf(extension).value, library(FormatOf(extension).value)).Text?
      && |Strip(Extract(FormatOf(extension).value, library(FormatOf(extension).value)).text)| >= 10
    ensures IntakeOf(filePath, library).Accept? ==>
      '/' !in IntakeOf(filePath, library).filename && |IntakeOf(filePath, library).text| >= 10
  {
    var extension := Extension(Basename(filePath));
    if FormatOf(extension).Some? {
      var ex := Extract(FormatOf(extension).value, library(FormatOf(extension).value));
      if ex.Text? {
        StripShape(ex.text);
      }
    }
  }

  /** An `.xls` upload is read with xlrd's truthiness rule and an `.xlsx`
      upload with openpyxl's `is not None` rule: accepted, each stores the
      workbook text of its own reader. */
  /** An accepted upload stores exactly the text the extractor of its
      extension made. */
  lemma AcceptedText(filePath: string, library: Library)
    requires IntakeOf(filePath, library).Accept?
    ensures var format := FormatOf(Extension(Basename(filePath)));
      format.Some? && Extract(format.value, library(format.value)) == Text(IntakeOf(filePath, library).text)
  {
  }

  /** An `.xls` workbook is rendered with xlrd's truthiness rule and an
      `.xlsx` workbook with openpyxl's `is not None` rule. */
  lemma SpreadsheetReaderByExtension(sheets: seq<Sheet>)
    ensures FormatOf("xls") == Some(Xls) && Extract(Xls, Workbook(sheets)) == Text(WorkbookText(Xlrd, sheets))
    ensures FormatOf("xlsx") == Some(Xlsx) && Extract(Xlsx, Workbook(sheets)) == Text(WorkbookText(OpenPyxl, sheets))
  {
  }

  /** A PDF of blank pages is refused as insufficient. */
  lemma BlankPdfRefused(filePath: string, library: Library, pages: seq<string>)
    requires Extension(Basename(filePath)) == "pdf"
    requires library(Pdf) == PdfPages(pages)
    requires forall p, i :: p in pages && 0 <= i < |p| ==> IsSpace(p[i])
    ensures IntakeOf(filePath, library) == Refuse(InsufficientContent)
  {
    PdfTextEmptyIffBlank(pages);
  }
}
