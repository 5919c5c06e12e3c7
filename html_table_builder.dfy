/**
 * HtmlTableBuilder: generateTable, the serialiser behind every sortable,
 * filterable table of the reports.
 *
 * The StringBuilder is modelled as the sequence of its append calls. Each call
 * is tagged: Markup for text the builder itself writes (tags, attributes, the
 * row label), Data for text the caller supplies (caption, table id, headers,
 * cell data, sort keys). The page text is the concatenation of the chunks.
 * Keeping the tag is what lets the structure be counted: a header or a cell
 * whose text happens to look like a tag is still Data.
 *
 * Table is the specification; GenerateTable is the append loop, proved to
 * produce exactly Table.
 */
module HtmlTableBuilder {
  import opened Wrappers
  import opened JavaText
  import opened Sorting

  /**
   * The fixed markup the builder writes, one constructor per append of a
   * literal. RowLabel carries the row label the builder computes; PlainCell and
   * SortedCellClass carry whether the cell's text is truncated, which selects its classes.
   */
  datatype Piece =
    | Outer | HeadingRow | CaptionOpen | CaptionClose
    | ButtonBox | ExportButton | ExportButtonRest | ExportIcon | DivClose
    | FilterRow | FilterLabel | InputOpen | InputRest | ArgSep | InputClose | SpanOpen | SpanRest
    | RowLabel(text: string) | SpanClose
    | TableTag | TableTagRest | THead | HeadRow | HeaderCell | HeaderCellClose | HeadRowClose | THeadClose | TBody
    | RowStart | RowClose | SortedCell | SortedCellClass(limited: bool) | PlainCell(limited: bool)
    | Tooltip | Truncated | CellClose | TBodyClose | TableClose

  /** One append call: fixed markup, or text the caller supplies. */
  datatype Chunk = Markup(piece: Piece) | Data(text: string)

  /** HtmlTableDataColumn: the cell text, an optional machine-sortable key, and whether the text is truncated behind a tooltip. */
  datatype Column = Column(data: string, sortableData: Option<string>, limitText: bool)

  /** The text of each piece of fixed markup, as the builder appends it. */
  function PieceText(p: Piece): string {
    if p.SortedCellClass? || p.PlainCell? then ClassAttr(ClassPrefix(p), p.limited)
    else if p.RowLabel? then p.text
    else FixedText(p)
  }

  /** The text of the pieces that carry no parameter. */
  function FixedText(p: Piece): string {
    match p
    case SortedCellClass(_) | PlainCell(_) | RowLabel(_) => ""
    case Outer => "<div class=\"overflow-x-auto\">\n"
    case HeadingRow => "<div class=\"mb-4 flex justify-between items-center\">\n"
    case CaptionOpen => "<h3 class=\"text-lg font-semibold text-gray-700 capitalize\">"
    case CaptionClose => "</h3>\n"
    case ButtonBox => "<div class=\"flex items-center space-x-4\">\n"
    case ExportButton => "<button onClick=\"exportAsCSV('"
    case ExportButtonRest =>
      "')\" class=\"px-4 py-2 bg-blue-600 text-white text-sm font-medium rounded-lg hover:bg-blue-700 transition-colors\">"
    case ExportIcon => "<i class=\"fas fa-download mr-2\"></i>Export CSV</button>\n"
    case DivClose => "</div>\n"
    case FilterRow => "<div class=\"mb-4 flex items-center space-x-4\">\n"
    case FilterLabel => "<label class=\"text-sm font-medium text-gray-700\">Filter: </label>"
    case InputOpen => "<input id=\""
    case InputRest => "\" type=\"text\" onkeyup=\"filterTable('"
    case ArgSep => "', '"
    case InputClose =>
      "')\" class=\"px-3 py-2 border border-gray-300 rounded-lg focus:ring-2 focus:ring-blue-500 focus:border-blue-500\" placeholder=\"Type to search...\" />"
    case SpanOpen => "<span id=\""
    case SpanRest => "\" class=\"text-sm text-gray-600\">"
    case SpanClose => "</span>"
    case TableTag => "<table class=\"sortable comparison-table w-full text-sm text-left text-gray-700 rounded-lg overflow-hidden\" id=\""
    case TableTagRest => "\">\n"
    case THead => "<thead class=\"text-xs text-gray-700 uppercase bg-gray-100\">\n"
    case HeadRow => "<tr>\n"
    case HeaderCell => "<th class=\"px-6 py-3 font-medium\">"
    case HeaderCellClose => "</th>\n"
    case HeadRowClose => "</tr>\n"
    case THeadClose => "</thead>\n"
    case TBody => "<tbody class=\"bg-white divide-y divide-gray-200\">\n"
    case RowStart => "<tr class=\"hover:bg-gray-50 transition-colors\">"
    case RowClose => "</tr>\n"
    case SortedCell => "<td data-sort=\""
    case Tooltip =>
      "<span class=\"tooltiptext-pr absolute z-10 w-max max-w-xs px-3 py-2 text-sm text-white bg-gray-900 rounded-lg shadow-lg opacity-0 invisible group-hover:opacity-100 group-hover:visible transition-opacity duration-300 bottom-full left-1/2 transform -translate-x-1/2 mb-2\">"
    case Truncated => "<span class=\"truncate block max-w-xs\">"
    case CellClose => "</td>\n"
    case TBodyClose => "</tbody>\n"
    case TableClose => "</table>\n"
  }

  function ChunkText(c: Chunk): string {
    match c
    case Markup(p) => PieceText(p)
    case Data(s) => s
  }

  /** The text the builder holds: the chunks concatenated. */
  function Text(cs: seq<Chunk>): string {
    if cs == [] then "" else Text(cs[..|cs| - 1]) + ChunkText(cs[|cs| - 1])
  }

  /** Number of occurrences of a piece of markup. */
  function Count(cs: seq<Chunk>, p: Piece): nat {
    if cs == [] then 0 else Count(cs[..|cs| - 1], p) + (if cs[|cs| - 1] == Markup(p) then 1 else 0)
  }

  const BaseClasses := "px-6 py-4 whitespace-nowrap"
  const LimitClasses := " tooltip-pr relative"

  /** The filter input's id. */
  function InputId(tableID: string): string { tableID + "Input" }

  /** The row-count span's id. */
  function SpanId(tableID: string): string { tableID + "Span" }

  /** rows.size(), or 0 when rows is null. */
  function RowCount(rows: Option<seq<seq<Column>>>): nat {
    if rows.Some? then |rows.value| else 0
  }

  /** The row label " %d %s shown": "row" for exactly one row, "rows" otherwise. */
  function RowLabelText(n: nat): string {
    " " + IntToString(n) + " " + (if n != 1 then "rows" else "row") + " shown"
  }

  /** The Export CSV button. */
  function ExportChunks(tableID: string): seq<Chunk> {
    [Markup(ButtonBox), Markup(ExportButton), Data(tableID), Markup(ExportButtonRest), Markup(ExportIcon), Markup(DivClose)]
  }

  /** The caption line and, when there are rows, the Export CSV button. */
  function Heading(tableID: string, caption: string, rows: Option<seq<seq<Column>>>): seq<Chunk> {
    [Markup(Outer), Markup(HeadingRow), Markup(CaptionOpen), Data(caption), Markup(CaptionClose)]
    + (if rows.Some? && |rows.value| > 0 then ExportChunks(tableID) else [])
    + [Markup(DivClose)]
  }

  /** The filter box and the row label. */
  function Filter(tableID: string, rowCount: nat): seq<Chunk> {
    FilterBox(tableID) + [Markup(RowLabel(RowLabelText(rowCount))), Markup(SpanClose), Markup(DivClose)]
  }

  /** The filter box up to the row label: the input, which calls filterTable, and the span's opening tag. */
  function FilterBox(tableID: string): seq<Chunk> {
    [Markup(FilterRow), Markup(FilterLabel),
     Markup(InputOpen), Data(InputId(tableID)), Markup(InputRest), Data(tableID), Markup(ArgSep),
     Data(InputId(tableID)), Markup(ArgSep), Data(SpanId(tableID)), Markup(InputClose),
     Markup(SpanOpen), Data(SpanId(tableID)), Markup(SpanRest)]
  }

  /** The table tag up to the header cells. */
  function TableOpen(tableID: string): seq<Chunk> {
    [Markup(TableTag), Data(tableID), Markup(TableTagRest), Markup(THead), Markup(HeadRow)]
  }

  /** From the end of the header cells to the start of the body. */
  const HeadClose: seq<Chunk> := [Markup(HeadRowClose), Markup(THeadClose), Markup(TBody)]

  /** The end of the body, the table and the outer div. */
  const Closing: seq<Chunk> := [Markup(TBodyClose), Markup(TableClose), Markup(DivClose)]

  /** One header cell. */
  function HeaderCellChunks(header: string): seq<Chunk> {
    [Markup(HeaderCell), Data(header), Markup(HeaderCellClose)]
  }

  /** The header cells, in header order. */
  function HeaderCells(headers: seq<string>): seq<Chunk> {
    if headers == [] then [] else HeaderCells(headers[..|headers| - 1]) + HeaderCellChunks(headers[|headers| - 1])
  }

  /** The classes of a cell: the base classes, plus the tooltip classes for truncated text. */
  function Classes(limitText: bool): string {
    if limitText then BaseClasses + LimitClasses else BaseClasses
  }

  /** The end of a cell's opening tag: the text before the classes, the classes, and the closing quote and bracket. */
  function ClassAttr(pre: string, limitText: bool): string {
    pre + Classes(limitText) + "\">"
  }

  /** The opening tag of a cell: with a data-sort attribute exactly when the column has a sort key. */
  function CellOpen(c: Column): seq<Chunk> {
    if c.sortableData.Some? then
      [Markup(SortedCell), Data(c.sortableData.value), Markup(SortedCellClass(c.limitText))]
    else
      [Markup(PlainCell(c.limitText))]
  }

  /** The content of a cell: truncated text is written twice, once in the tooltip and once in the visible span. */
  function CellBody(c: Column): seq<Chunk> {
    if c.limitText then
      [Markup(Tooltip), Data(c.data), Markup(SpanClose), Markup(Truncated), Data(c.data), Markup(SpanClose)]
    else
      [Data(c.data)]
  }

  function Cell(c: Column): seq<Chunk> {
    CellOpen(c) + CellBody(c) + [Markup(CellClose)]
  }

  /** The cells of one row, in column order. */
  function Cells(cols: seq<Column>): seq<Chunk> {
    if cols == [] then [] else Cells(cols[..|cols| - 1]) + Cell(cols[|cols| - 1])
  }

  function Row(cols: seq<Column>): seq<Chunk> {
    [Markup(RowStart)] + Cells(cols) + [Markup(RowClose)]
  }

  /** The body rows, in row order. */
  function Rows(rows: seq<seq<Column>>): seq<Chunk> {
    if rows == [] then [] else Rows(rows[..|rows| - 1]) + Row(rows[|rows| - 1])
  }

  /** Null rows give an empty body. */
  function Body(rows: Option<seq<seq<Column>>>): seq<Chunk> {
    if rows.Some? then Rows(rows.value) else []
  }

  /** The specification of generateTable. */
  function Table(tableID: string, caption: string, headers: seq<string>, rows: Option<seq<seq<Column>>>): seq<Chunk> {
    Heading(tableID, caption, rows) + Filter(tableID, RowCount(rows)) + TableOpen(tableID)
    + HeaderCells(headers) + HeadClose + Body(rows) + Closing
  }

  // ---------------------------------------------------------------------------
  // generateTable
  // ---------------------------------------------------------------------------

  /** The caption line and the Export CSV button, which only a non-empty row list gets. */
  method AppendHeading(builder: seq<Chunk>, tableID: string, caption: string, rows: Option<seq<seq<Column>>>)
    returns (out: seq<Chunk>)
    ensures out == builder + Heading(tableID, caption, rows)
  {
    out := builder + [Markup(Outer)];
    out := out + [Markup(HeadingRow)];
    out := out + [Markup(CaptionOpen)];
    out := out + [Data(caption)];
    out := out + [Markup(CaptionClose)];
    ghost var before := out;
    if rows.Some? && |rows.value| > 0 {
      out := out + [Markup(ButtonBox)];
      out := out + [Markup(ExportButton)];
      out := out + [Data(tableID)];
      out := out + [Markup(ExportButtonRest)];
      out := out + [Markup(ExportIcon)];
      out := out + [Markup(DivClose)];
      assert out == before + ExportChunks(tableID);
    }
    out := out + [Markup(DivClose)];
  }

  /** The filter box; the row label's noun is made plural unless there is exactly one row. */
  method AppendFilter(builder: seq<Chunk>, tableID: string, rows: Option<seq<seq<Column>>>) returns (out: seq<Chunk>)
    ensures out == builder + Filter(tableID, RowCount(rows))
  {
    var inputID := tableID + "Input";
    var spanID := tableID + "Span";
    out := builder + [Markup(FilterRow)];
    out := out + [Markup(FilterLabel)];
    out := out + [Markup(InputOpen)];
    out := out + [Data(inputID)];
    out := out + [Markup(InputRest)];
    out := out + [Data(tableID)];
    out := out + [Markup(ArgSep)];
    out := out + [Data(inputID)];
    out := out + [Markup(ArgSep)];
    out := out + [Data(spanID)];
    out := out + [Markup(InputClose)];
    out := out + [Markup(SpanOpen)];
    out := out + [Data(spanID)];
    out := out + [Markup(SpanRest)];
    assert out == builder + FilterBox(tableID);
    var name := "row";
    var rowCount := 0;
    if rows.Some? {
      rowCount := |rows.value|;
    }
    if rowCount != 1 {
      name := name + "s";
    }
    var rowTitle := " " + IntToString(rowCount) + " " + name + " shown";
    assert rowTitle == RowLabelText(RowCount(rows));
    out := out + [Markup(RowLabel(rowTitle))];
    out := out + [Markup(SpanClose)];
    out := out + [Markup(DivClose)];
  }

  /** The header loop. */
  method AppendHeaders(builder: seq<Chunk>, headers: seq<string>) returns (out: seq<Chunk>)
    ensures out == builder + HeaderCells(headers)
  {
    out := builder;
    for i := 0 to |headers|
      invariant out == builder + HeaderCells(headers[..i])
    {
      assert headers[..i + 1][..i] == headers[..i];
      AppendAssoc(builder, HeaderCells(headers[..i]), HeaderCellChunks(headers[i]));
      out := out + [Markup(HeaderCell)];
      out := out + [Data(headers[i])];
      out := out + [Markup(HeaderCellClose)];
    }
    assert headers[..|headers|] == headers;
  }

  /** The body of the column loop: the classes string is built first, then the opening tag. */
  method AppendCell(builder: seq<Chunk>, column: Column) returns (out: seq<Chunk>)
    ensures out == builder + Cell(column)
  {
    out := builder;
    if column.sortableData.Some? {
      out := out + [Markup(SortedCell)];
      out := out + [Data(column.sortableData.value)];
      out := out + [Markup(SortedCellClass(column.limitText))];
    } else {
      out := out + [Markup(PlainCell(column.limitText))];
    }
    if column.limitText {
      out := out + [Markup(Tooltip)];
      out := out + [Data(column.data)];
      out := out + [Markup(SpanClose)];
      out := out + [Markup(Truncated)];
      out := out + [Data(column.data)];
      out := out + [Markup(SpanClose)];
    } else {
      out := out + [Data(column.data)];
    }
    out := out + [Markup(CellClose)];
  }

  /** One row: the column loop between the row's opening and closing tags. */
  method AppendRow(builder: seq<Chunk>, detail: seq<Column>) returns (out: seq<Chunk>)
    ensures out == builder + Row(detail)
  {
    out := builder + [Markup(RowStart)];
    ghost var rowStart := out;
    for j := 0 to |detail|
      invariant out == rowStart + Cells(detail[..j])
    {
      assert detail[..j + 1][..j] == detail[..j];
      assert Cells(detail[..j + 1]) == Cells(detail[..j]) + Cell(detail[j]);
      AppendAssoc(rowStart, Cells(detail[..j]), Cell(detail[j]));
      out := AppendCell(out, detail[j]);
    }
    assert detail[..|detail|] == detail;
    out := out + [Markup(RowClose)];
  }

  /** The row loop. */
  method AppendRows(builder: seq<Chunk>, rows: seq<seq<Column>>) returns (out: seq<Chunk>)
    ensures out == builder + Rows(rows)
  {
    out := builder;
    for i := 0 to |rows|
      invariant out == builder + Rows(rows[..i])
    {
      assert rows[..i + 1][..i] == rows[..i];
      AppendAssoc(builder, Rows(rows[..i]), Row(rows[i]));
      out := AppendRow(out, rows[i]);
    }
    assert rows[..|rows|] == rows;
  }

  /** generateTable. */
  method GenerateTable(tableID: string, caption: string, headers: seq<string>, rows: Option<seq<seq<Column>>>)
    returns (out: seq<Chunk>)
    ensures out == Table(tableID, caption, headers, rows)
  {
    out := AppendHeading([], tableID, caption, rows);
    assert out == Heading(tableID, caption, rows);
    out := AppendFilter(out, tableID, rows);
    out := AppendTableOpen(out, tableID);
    out := AppendHeaders(out, headers);
    out := AppendHeadClose(out);
    if rows.Some? {
      out := AppendRows(out, rows.value);
    }
    out := AppendClosing(out);
  }

  /** The table tag with its id, the head and the header row's opening tag. */
  method AppendTableOpen(builder: seq<Chunk>, tableID: string) returns (out: seq<Chunk>)
    ensures out == builder + TableOpen(tableID)
  {
    out := builder + [Markup(TableTag)];
    out := out + [Data(tableID)];
    out := out + [Markup(TableTagRest)];
    out := out + [Markup(THead)];
    out := out + [Markup(HeadRow)];
  }

  /** The header row's and the head's closing tags and the body's opening tag. */
  method AppendHeadClose(builder: seq<Chunk>) returns (out: seq<Chunk>)
    ensures out == builder + HeadClose
  {
    out := builder + [Markup(HeadRowClose)];
    out := out + [Markup(THeadClose)];
    out := out + [Markup(TBody)];
  }

  /** The closing tags of the body, the table and the outer div. */
  method AppendClosing(builder: seq<Chunk>) returns (out: seq<Chunk>)
    ensures out == builder + Closing
  {
    out := builder + [Markup(TBodyClose)];
    out := out + [Markup(TableClose)];
    out := out + [Markup(DivClose)];
  }

  // ---------------------------------------------------------------------------
  // What the table holds
  // ---------------------------------------------------------------------------

  /** Header cell i sits at chunks 3i..3i+2: one <th> per header, in header order. */
  lemma {:induction false} HeaderCellsInOrder(headers: seq<string>, i: nat)
    requires i < |headers|
    ensures |HeaderCells(headers)| == 3 * |headers|
    ensures HeaderCells(headers)[3 * i..3 * i + 3] == [Markup(HeaderCell), Data(headers[i]), Markup(HeaderCellClose)]
  {
    var init := headers[..|headers| - 1];
    if i < |headers| - 1 {
      HeaderCellsInOrder(init, i);
      assert init[i] == headers[i];
      assert HeaderCells(headers)[3 * i..3 * i + 3] == HeaderCells(init)[3 * i..3 * i + 3];
    } else if init != [] {
      HeaderCellsInOrder(init, 0);
    }
  }

  /** The chunks of part sit in whole starting at chunk off. */
  predicate At(whole: seq<Chunk>, off: nat, part: seq<Chunk>) {
    off + |part| <= |whole| && whole[off..off + |part|] == part
  }

  lemma AtFront(front: seq<Chunk>, back: seq<Chunk>, off: nat, part: seq<Chunk>)
    requires At(front, off, part)
    ensures At(front + back, off, part)
  {
    assert (front + back)[off..off + |part|] == front[off..off + |part|];
  }

  lemma AtBack(front: seq<Chunk>, back: seq<Chunk>)
    ensures At(front + back, |front|, back)
  {
    assert (front + back)[|front|..|front| + |back|] == back;
  }

  lemma AtIndex(whole: seq<Chunk>, off: nat, part: seq<Chunk>, k: nat)
    requires At(whole, off, part) && k < |part|
    ensures whole[off + k] == part[k]
  {
    assert whole[off..off + |part|][k] == part[k];
  }

  lemma AtAfter(front: seq<Chunk>, whole: seq<Chunk>, off: nat, part: seq<Chunk>)
    requires At(whole, off, part)
    ensures At(front + whole, |front| + off, part)
  {
    assert (front + whole)[|front| + off..|front| + off + |part|] == whole[off..off + |part|];
  }

  /** Cell j of a row sits right after the cells before it: one <td> per column, in column order. */
  lemma {:induction false} CellsInOrder(cols: seq<Column>, j: nat)
    requires j < |cols|
    ensures At(Cells(cols), |Cells(cols[..j])|, Cell(cols[j]))
  {
    var init := cols[..|cols| - 1];
    var front, back := Cells(init), Cell(cols[|cols| - 1]);
    assert Cells(cols) == front + back;
    if j < |init| {
      CellsInOrder(init, j);
      assert init[j] == cols[j] && cols[..j] == init[..j];
      AtFront(front, back, |Cells(init[..j])|, Cell(cols[j]));
    } else {
      assert cols[..j] == init;
      AtBack(front, back);
    }
  }

  /** The text of column j is the first caller-supplied chunk after cell j's opening tag (and the tooltip tag). */
  lemma CellDataInRow(cols: seq<Column>, j: nat)
    requires j < |cols|
    ensures var off := 1 + |Cells(cols[..j])| + DataOffset(cols[j]);
            off < |Row(cols)| && Row(cols)[off] == Data(cols[j].data)
  {
    var c, off := cols[j], |Cells(cols[..j])|;
    CellsInOrder(cols, j);
    assert Row(cols) == ([Markup(RowStart)] + Cells(cols)) + [Markup(RowClose)];
    AtAfter([Markup(RowStart)], Cells(cols), off, Cell(c));
    AtFront([Markup(RowStart)] + Cells(cols), [Markup(RowClose)], 1 + off, Cell(c));
    CellDataAt(c);
    AtIndex(Row(cols), 1 + off, Cell(c), DataOffset(c));
  }

  /** Where a cell's text starts: after the opening tag, and after the tooltip tag for truncated text. */
  function DataOffset(c: Column): nat {
    |CellOpen(c)| + (if c.limitText then 1 else 0)
  }

  lemma CellDataAt(c: Column)
    ensures DataOffset(c) < |Cell(c)| && Cell(c)[DataOffset(c)] == Data(c.data)
  {
    assert Cell(c)[DataOffset(c)] == CellBody(c)[DataOffset(c) - |CellOpen(c)|];
  }

  /** Row i of the body sits right after the rows before it: one <tr> per row, in row order. */
  lemma {:induction false} RowsInOrder(rows: seq<seq<Column>>, i: nat)
    requires i < |rows|
    ensures At(Rows(rows), |Rows(rows[..i])|, Row(rows[i]))
  {
    var init := rows[..|rows| - 1];
    var front, back := Rows(init), Row(rows[|rows| - 1]);
    assert Rows(rows) == front + back;
    if i < |init| {
      RowsInOrder(init, i);
      assert init[i] == rows[i] && rows[..i] == init[..i];
      AtFront(front, back, |Rows(init[..i])|, Row(rows[i]));
    } else {
      assert rows[..i] == init;
      AtBack(front, back);
    }
  }

  /** Everything generateTable writes before the first body row. */
  function TableHead(tableID: string, caption: string, headers: seq<string>, rows: Option<seq<seq<Column>>>): seq<Chunk> {
    Heading(tableID, caption, rows) + Filter(tableID, RowCount(rows)) + TableOpen(tableID) + HeaderCells(headers) + HeadClose
  }

  /**
   * In the whole table, row i of a non-null row list follows the table head and
   * the rows before it.
   */
  lemma RowInTable(tableID: string, caption: string, headers: seq<string>, rows: seq<seq<Column>>, i: nat)
    requires i < |rows|
    ensures At(Table(tableID, caption, headers, Some(rows)),
               |TableHead(tableID, caption, headers, Some(rows))| + |Rows(rows[..i])|, Row(rows[i]))
  {
    var head := TableHead(tableID, caption, headers, Some(rows));
    assert Table(tableID, caption, headers, Some(rows)) == (head + Rows(rows)) + Closing;
    RowsInOrder(rows, i);
    AtAfter(head, Rows(rows), |Rows(rows[..i])|, Row(rows[i]));
    AtFront(head + Rows(rows), Closing, |head| + |Rows(rows[..i])|, Row(rows[i]));
  }

  /** Number of cells of all rows. */
  function ColumnTotal(rows: seq<seq<Column>>): nat {
    if rows == [] then 0 else ColumnTotal(rows[..|rows| - 1]) + |rows[|rows| - 1]|
  }

  /** Number of cells of one row that carry a sort key. */
  function SortKeyCount(cols: seq<Column>): nat {
    if cols == [] then 0
    else SortKeyCount(cols[..|cols| - 1]) + (if cols[|cols| - 1].sortableData.Some? then 1 else 0)
  }

  /** Number of cells of all rows that carry a sort key. */
  function SortKeyTotal(rows: seq<seq<Column>>): nat {
    if rows == [] then 0 else SortKeyTotal(rows[..|rows| - 1]) + SortKeyCount(rows[|rows| - 1])
  }

  /** Number of cell openings: the data-sort form plus the plain form with either set of classes. */
  function CellOpenCount(cs: seq<Chunk>): nat {
    Count(cs, SortedCell) + Count(cs, PlainCell(false)) + Count(cs, PlainCell(true))
  }

  /**
   * The five tallies of a chunk sequence: header cells, row starts, cell
   * openings, data-sort cells and Export buttons.
   */
  predicate Tally(cs: seq<Chunk>, headerCells: nat, rowStarts: nat, cellOpens: nat, sorted: nat, exports: nat) {
    Count(cs, HeaderCell) == headerCells && Count(cs, RowStart) == rowStarts &&
    CellOpenCount(cs) == cellOpens && Count(cs, SortedCell) == sorted && Count(cs, ExportButton) == exports
  }

  /** Counts add up over a concatenation. */
  lemma {:induction false} CountsAppend(a: seq<Chunk>, b: seq<Chunk>, p: Piece)
    ensures Count(a + b, p) == Count(a, p) + Count(b, p)
  {
    if b == [] {
      assert a + b == a;
    } else {
      CountsAppend(a, b[..|b| - 1], p);
      assert (a + b)[..|a + b| - 1] == a + b[..|b| - 1];
    }
  }

  /** Tallies add up over a concatenation. */
  lemma TallyAppend(a: seq<Chunk>, b: seq<Chunk>, h1: nat, r1: nat, c1: nat, s1: nat, e1: nat,
                    h2: nat, r2: nat, c2: nat, s2: nat, e2: nat)
    requires Tally(a, h1, r1, c1, s1, e1) && Tally(b, h2, r2, c2, s2, e2)
    ensures Tally(a + b, h1 + h2, r1 + r2, c1 + c2, s1 + s2, e1 + e2)
  {
    CountsAppend(a, b, HeaderCell);
    CountsAppend(a, b, RowStart);
    CountsAppend(a, b, SortedCell);
    CountsAppend(a, b, PlainCell(false));
    CountsAppend(a, b, PlainCell(true));
    CountsAppend(a, b, ExportButton);
  }

  /** The tags the structure lemmas count: header cells, row starts, Export buttons and cell openings. */
  predicate Counted(c: Chunk) {
    c.Markup? && (c.piece.HeaderCell? || c.piece.RowStart? || c.piece.ExportButton? || c.piece.SortedCell? ||
                  c.piece.PlainCell?)
  }

  /** Chunks holding none of the counted tags. */
  predicate Uncounted(cs: seq<Chunk>) {
    forall c | c in cs :: !Counted(c)
  }

  lemma {:induction false} UncountedTally(cs: seq<Chunk>)
    requires Uncounted(cs)
    ensures Tally(cs, 0, 0, 0, 0, 0)
  {
    if cs != [] {
      var init := cs[..|cs| - 1];
      assert forall c | c in init :: c in cs;
      assert cs[|cs| - 1] in cs;
      UncountedTally(init);
    }
  }

  /** A single chunk counts once for its own piece and nowhere else. */
  lemma SingleCount(c: Chunk, p: Piece)
    ensures Count([c], p) == if c == Markup(p) then 1 else 0
  {
    assert [c][..0] == [];
  }

  /** Header cells hold one <th> per header and none of the other counted tags. */
  lemma {:induction false} HeaderCellsCount(headers: seq<string>)
    ensures Tally(HeaderCells(headers), |headers|, 0, 0, 0, 0)
  {
    if headers != [] {
      var h := headers[|headers| - 1];
      HeaderCellsCount(headers[..|headers| - 1]);
      assert Tally([Markup(HeaderCell)], 1, 0, 0, 0, 0) by {
        SingleCount(Markup(HeaderCell), HeaderCell);
        SingleCount(Markup(HeaderCell), RowStart);
        SingleCount(Markup(HeaderCell), SortedCell);
        SingleCount(Markup(HeaderCell), PlainCell(false));
        SingleCount(Markup(HeaderCell), PlainCell(true));
        SingleCount(Markup(HeaderCell), ExportButton);
      }
      assert Tally([Data(h), Markup(HeaderCellClose)], 0, 0, 0, 0, 0) by {
        assert Uncounted([Data(h), Markup(HeaderCellClose)]);
        UncountedTally([Data(h), Markup(HeaderCellClose)]);
      }
      assert HeaderCellChunks(h) == [Markup(HeaderCell)] + [Data(h), Markup(HeaderCellClose)];
      TallyAppend([Markup(HeaderCell)], [Data(h), Markup(HeaderCellClose)], 1, 0, 0, 0, 0, 0, 0, 0, 0, 0);
      TallyAppend(HeaderCells(headers[..|headers| - 1]), HeaderCellChunks(h),
                  |headers| - 1, 0, 0, 0, 0, 1, 0, 0, 0, 0);
    }
  }

  /** A cell's opening tag: the data-sort form when the column has a sort key, the plain form otherwise. */
  lemma CellOpenCounts(c: Column)
    ensures Tally(CellOpen(c), 0, 0, 1, if c.sortableData.Some? then 1 else 0, 0)
  {
    var first := CellOpen(c)[0];
    SingleCount(first, HeaderCell);
    SingleCount(first, RowStart);
    SingleCount(first, SortedCell);
    SingleCount(first, PlainCell(false));
    SingleCount(first, PlainCell(true));
    SingleCount(first, ExportButton);
    if c.sortableData.Some? {
      var rest := [Data(c.sortableData.value), Markup(SortedCellClass(c.limitText))];
      assert Uncounted(rest);
      UncountedTally(rest);
      assert CellOpen(c) == [first] + rest;
      TallyAppend([first], rest, 0, 0, 1, 1, 0, 0, 0, 0, 0, 0);
    } else {
      assert CellOpen(c) == [first];
    }
  }

  /** One cell: exactly one opening tag, in the data-sort form exactly when the column has a sort key. */
  lemma CellCounts(c: Column)
    ensures Tally(Cell(c), 0, 0, 1, if c.sortableData.Some? then 1 else 0, 0)
  {
    var rest := CellBody(c) + [Markup(CellClose)];
    assert Uncounted(rest);
    UncountedTally(rest);
    CellOpenCounts(c);
    assert Cell(c) == CellOpen(c) + rest;
    TallyAppend(CellOpen(c), rest, 0, 0, 1, if c.sortableData.Some? then 1 else 0, 0, 0, 0, 0, 0, 0);
  }

  /** The cells of a row: one opening tag per column, a data-sort form per sort key. */
  lemma {:induction false} CellsCounts(cols: seq<Column>)
    ensures Tally(Cells(cols), 0, 0, |cols|, SortKeyCount(cols), 0)
  {
    if cols != [] {
      var last := cols[|cols| - 1];
      CellsCounts(cols[..|cols| - 1]);
      CellCounts(last);
      TallyAppend(Cells(cols[..|cols| - 1]), Cell(last), 0, 0, |cols| - 1, SortKeyCount(cols[..|cols| - 1]), 0,
                  0, 0, 1, if last.sortableData.Some? then 1 else 0, 0);
    }
  }

  /** A chunk put in front counts once for its own piece. */
  lemma CountCons(c: Chunk, cs: seq<Chunk>, p: Piece)
    ensures Count([c] + cs, p) == (if c == Markup(p) then 1 else 0) + Count(cs, p)
  {
    CountsAppend([c], cs, p);
    assert [c][..0] == [];
  }

  /** A chunk put at the end counts once for its own piece. */
  lemma CountSnoc(cs: seq<Chunk>, c: Chunk, p: Piece)
    ensures Count(cs + [c], p) == Count(cs, p) + (if c == Markup(p) then 1 else 0)
  {
    assert (cs + [c])[..|cs|] == cs;
  }

  /** Cells between a row's opening and closing tags: one more <tr>, nothing else. */
  lemma WrapRowTally(cells: seq<Chunk>, n: nat, k: nat)
    requires Tally(cells, 0, 0, n, k, 0)
    ensures Tally([Markup(RowStart)] + cells + [Markup(RowClose)], 0, 1, n, k, 0)
  {
    var front := [Markup(RowStart)] + cells;
    forall p: Piece
      ensures Count(front + [Markup(RowClose)], p) ==
              Count(cells, p) + (if p == RowStart then 1 else 0) + (if p == RowClose then 1 else 0)
    {
      CountCons(Markup(RowStart), cells, p);
      CountSnoc(front, Markup(RowClose), p);
    }
  }

  /** One row: one <tr>, and the cells of its columns. */
  lemma RowCounts(cols: seq<Column>)
    ensures Tally(Row(cols), 0, 1, |cols|, SortKeyCount(cols), 0)
  {
    CellsCounts(cols);
    WrapRowTally(Cells(cols), |cols|, SortKeyCount(cols));
  }

  /** The body rows: one <tr> per row, one cell opening per column. */
  lemma {:induction false} RowsCounts(rows: seq<seq<Column>>)
    ensures Tally(Rows(rows), 0, |rows|, ColumnTotal(rows), SortKeyTotal(rows), 0)
  {
    if rows != [] {
      var last := rows[|rows| - 1];
      RowsCounts(rows[..|rows| - 1]);
      RowCounts(last);
      TallyAppend(Rows(rows[..|rows| - 1]), Row(last),
                  0, |rows| - 1, ColumnTotal(rows[..|rows| - 1]), SortKeyTotal(rows[..|rows| - 1]), 0,
                  0, 1, |last|, SortKeyCount(last), 0);
    }
  }

  /** The Export CSV button holds one Export button tag and nothing else counted. */
  lemma ExportTally(tableID: string)
    ensures Tally(ExportChunks(tableID), 0, 0, 0, 0, 1)
  {
    var e := ExportChunks(tableID);
    var button := [Markup(ButtonBox), Markup(ExportButton)];
    assert Tally(button, 0, 0, 0, 0, 1) by {
      assert Uncounted([Markup(ButtonBox)]);
      UncountedTally([Markup(ButtonBox)]);
      SingleCount(Markup(ExportButton), HeaderCell);
      SingleCount(Markup(ExportButton), RowStart);
      SingleCount(Markup(ExportButton), SortedCell);
      SingleCount(Markup(ExportButton), PlainCell(false));
      SingleCount(Markup(ExportButton), PlainCell(true));
      SingleCount(Markup(ExportButton), ExportButton);
      TallyAppend([Markup(ButtonBox)], [Markup(ExportButton)], 0, 0, 0, 0, 0, 0, 0, 0, 0, 1);
    }
    assert Uncounted(e[2..]);
    UncountedTally(e[2..]);
    assert e == button + e[2..];
    TallyAppend(button, e[2..], 0, 0, 0, 0, 1, 0, 0, 0, 0, 0);
  }

  /** The heading holds one Export button exactly when the row list is non-null and non-empty, and no other counted tag. */
  lemma HeadingCounts(tableID: string, caption: string, rows: Option<seq<seq<Column>>>)
    ensures Tally(Heading(tableID, caption, rows), 0, 0, 0, 0, if rows.Some? && |rows.value| > 0 then 1 else 0)
  {
    var top := [Markup(Outer), Markup(HeadingRow), Markup(CaptionOpen), Data(caption), Markup(CaptionClose)];
    if rows.Some? && |rows.value| > 0 {
      assert Uncounted(top) && Uncounted([Markup(DivClose)]);
      UncountedTally(top);
      UncountedTally([Markup(DivClose)]);
      ExportTally(tableID);
      TallyAppend(top, ExportChunks(tableID), 0, 0, 0, 0, 0, 0, 0, 0, 0, 1);
      TallyAppend(top + ExportChunks(tableID), [Markup(DivClose)], 0, 0, 0, 0, 1, 0, 0, 0, 0, 0);
    } else {
      assert Uncounted(Heading(tableID, caption, rows));
      UncountedTally(Heading(tableID, caption, rows));
    }
  }

  /** The filter box holds no counted tag. */
  lemma FilterTally(tableID: string, rowCount: nat)
    ensures Tally(Filter(tableID, rowCount), 0, 0, 0, 0, 0)
  {
    assert Uncounted(Filter(tableID, rowCount));
    UncountedTally(Filter(tableID, rowCount));
  }

  /** The table opening holds no counted tag. */
  lemma TableOpenTally(tableID: string)
    ensures Tally(TableOpen(tableID), 0, 0, 0, 0, 0)
  {
    assert Uncounted(TableOpen(tableID));
    UncountedTally(TableOpen(tableID));
  }

  /** Neither the head closing nor the closing tags hold a counted tag. */
  lemma ClosingTally()
    ensures Tally(HeadClose, 0, 0, 0, 0, 0) && Tally(Closing, 0, 0, 0, 0, 0)
  {
    assert Uncounted(HeadClose);
    UncountedTally(HeadClose);
    assert Uncounted(Closing);
    UncountedTally(Closing);
  }

  /** The body: one <tr> per row and one cell opening per column; nothing for null rows. */
  lemma BodyTally(rows: Option<seq<seq<Column>>>)
    ensures Tally(Body(rows), 0, RowCount(rows), if rows.Some? then ColumnTotal(rows.value) else 0,
                  if rows.Some? then SortKeyTotal(rows.value) else 0, 0)
  {
    if rows.Some? {
      RowsCounts(rows.value);
    } else {
      UncountedTally([]);
    }
  }

  /** The tallies of the seven parts of a table add up. */
  lemma SevenTally(h: seq<Chunk>, f: seq<Chunk>, o: seq<Chunk>, hs: seq<Chunk>, hc: seq<Chunk>, b: seq<Chunk>,
                   cl: seq<Chunk>, e: nat, headers: nat, rowStarts: nat, cellOpens: nat, sorted: nat)
    requires Tally(h, 0, 0, 0, 0, e) && Tally(f, 0, 0, 0, 0, 0) && Tally(o, 0, 0, 0, 0, 0)
    requires Tally(hs, headers, 0, 0, 0, 0) && Tally(hc, 0, 0, 0, 0, 0)
    requires Tally(b, 0, rowStarts, cellOpens, sorted, 0) && Tally(cl, 0, 0, 0, 0, 0)
    ensures Tally(h + f + o + hs + hc + b + cl, headers, rowStarts, cellOpens, sorted, e)
  {
    TallyAppend(h, f, 0, 0, 0, 0, e, 0, 0, 0, 0, 0);
    TallyAppend(h + f, o, 0, 0, 0, 0, e, 0, 0, 0, 0, 0);
    TallyAppend(h + f + o, hs, 0, 0, 0, 0, e, headers, 0, 0, 0, 0);
    TallyAppend(h + f + o + hs, hc, headers, 0, 0, 0, e, 0, 0, 0, 0, 0);
    TallyAppend(h + f + o + hs + hc, b, headers, 0, 0, 0, e, 0, rowStarts, cellOpens, sorted, 0);
    TallyAppend(h + f + o + hs + hc + b, cl, headers, rowStarts, cellOpens, sorted, e, 0, 0, 0, 0, 0);
  }

  /** The tallies of a whole table. */
  lemma TableTally(tableID: string, caption: string, headers: seq<string>, rows: Option<seq<seq<Column>>>)
    ensures Tally(Table(tableID, caption, headers, rows), |headers|, RowCount(rows),
                  if rows.Some? then ColumnTotal(rows.value) else 0,
                  if rows.Some? then SortKeyTotal(rows.value) else 0,
                  if rows.Some? && |rows.value| > 0 then 1 else 0)
  {
    HeadingCounts(tableID, caption, rows);
    FilterTally(tableID, RowCount(rows));
    TableOpenTally(tableID);
    ClosingTally();
    HeaderCellsCount(headers);
    BodyTally(rows);
    SevenTally(Heading(tableID, caption, rows), Filter(tableID, RowCount(rows)), TableOpen(tableID),
               HeaderCells(headers), HeadClose, Body(rows), Closing,
               if rows.Some? && |rows.value| > 0 then 1 else 0, |headers|, RowCount(rows),
               if rows.Some? then ColumnTotal(rows.value) else 0, if rows.Some? then SortKeyTotal(rows.value) else 0);
  }

  /** A piece occurs in a chunk sequence exactly when its count is positive. */
  lemma {:induction false} CountPositive(cs: seq<Chunk>, p: Piece)
    ensures Markup(p) in cs <==> Count(cs, p) > 0
  {
    if cs != [] {
      var init := cs[..|cs| - 1];
      CountPositive(init, p);
      assert cs == init + [cs[|cs| - 1]];
    }
  }

  /**
   * generateTable's structure: one <th> per header, one <tr> per row (none for
   * null rows), one cell per column, a data-sort attribute per sort key, and an
   * Export CSV button exactly when rows is non-null and non-empty.
   */
  lemma TableCounts(tableID: string, caption: string, headers: seq<string>, rows: Option<seq<seq<Column>>>)
    ensures var t := Table(tableID, caption, headers, rows);
            Count(t, HeaderCell) == |headers| &&
            Count(t, RowStart) == RowCount(rows) &&
            CellOpenCount(t) == (if rows.Some? then ColumnTotal(rows.value) else 0) &&
            Count(t, SortedCell) == (if rows.Some? then SortKeyTotal(rows.value) else 0) &&
            (Markup(ExportButton) in t <==> rows.Some? && |rows.value| > 0)
  {
    TableTally(tableID, caption, headers, rows);
    CountPositive(Table(tableID, caption, headers, rows), ExportButton);
  }

  /** t ends with suffix. */
  predicate EndsWith(t: string, suffix: string) {
    |suffix| <= |t| && t[|t| - |suffix|..] == suffix
  }

  lemma EndsWithAppend(a: string, b: string)
    ensures EndsWith(a + b, b)
  {
    assert (a + b)[|a + b| - |b|..] == b;
  }

  lemma EndsWithChar(t: string, suffix: string, i: nat)
    requires EndsWith(t, suffix) && i < |suffix|
    ensures t[|t| - |suffix| + i] == suffix[i]
  {
    assert t[|t| - |suffix|..][i] == suffix[i];
  }

  lemma NotEndsWith(t: string, suffix: string, i: nat)
    requires i < |suffix| <= |t| && t[|t| - |suffix| + i] != suffix[i]
    ensures !EndsWith(t, suffix)
  {
    if EndsWith(t, suffix) {
      EndsWithChar(t, suffix, i);
    }
  }

  /** A class attribute ends in the tooltip classes exactly for truncated text. */
  lemma ClassesTail(pre: string, limited: bool)
    ensures EndsWith(ClassAttr(pre, limited), LimitClasses + "\">") <==> limited
  {
    var tail := LimitClasses + "\">";
    var t := ClassAttr(pre, limited);
    if limited {
      assert t == (pre + BaseClasses) + tail;
      EndsWithAppend(pre + BaseClasses, tail);
    } else {
      var front := pre + BaseClasses;
      assert t == front + "\">";
      assert t[|t| - 3] == front[|front| - 1] == BaseClasses[|BaseClasses| - 1] == 'p';
      assert tail[|tail| - 3] == 'e';
      NotEndsWith(t, tail, |tail| - 3);
    }
  }

  /** The text before the classes in the two tags that carry them. */
  function ClassPrefix(p: Piece): string
    requires p.SortedCellClass? || p.PlainCell?
  {
    if p.SortedCellClass? then "\" class=\"" else "<td class=\""
  }

  lemma ClassTagText(p: Piece)
    requires p.SortedCellClass? || p.PlainCell?
    ensures PieceText(p) == ClassAttr(ClassPrefix(p), p.limited)
  {
  }

  /** The two tags that carry a cell's classes end in the tooltip classes exactly for truncated text. */
  lemma ClassTagTail(p: Piece)
    requires p.SortedCellClass? || p.PlainCell?
    ensures EndsWith(PieceText(p), LimitClasses + "\">") <==> p.limited
  {
    var pre := ClassPrefix(p);
    ClassTagText(p);
    ClassesTail(pre, p.limited);
  }

  /**
   * A cell carries its sort key right after the data-sort attribute, its opening
   * tag ends in the tooltip classes exactly when the text is truncated, and
   * truncated text appears twice in its content.
   */
  lemma CellContent(c: Column)
    ensures c.sortableData.Some? ==> Cell(c)[..2] == [Markup(SortedCell), Data(c.sortableData.value)]
    ensures var open := CellOpen(c); EndsWith(ChunkText(open[|open| - 1]), LimitClasses + "\">") <==> c.limitText
    ensures multiset(CellBody(c))[Data(c.data)] == if c.limitText then 2 else 1
  {
    CellSortKey(c);
    CellOpenTooltip(c);
    CellDataTwice(c);
  }

  lemma CellSortKey(c: Column)
    ensures c.sortableData.Some? ==> Cell(c)[..2] == [Markup(SortedCell), Data(c.sortableData.value)]
  {
  }

  lemma CellOpenTooltip(c: Column)
    ensures var open := CellOpen(c); EndsWith(ChunkText(open[|open| - 1]), LimitClasses + "\">") <==> c.limitText
  {
    var open := CellOpen(c);
    ClassTagTail(open[|open| - 1].piece);
  }

  lemma CellDataTwice(c: Column)
    ensures multiset(CellBody(c))[Data(c.data)] == if c.limitText then 2 else 1
  {
  }

  /**
   * The filter box's ids: the input is tableID + "Input", the span tableID + "Span",
   * and filterTable is called with the table, input and span ids in that order; the
   * three ids are pairwise different.
   */
  lemma FilterIds(tableID: string, rowCount: nat)
    ensures var f := Filter(tableID, rowCount);
      && f[2] == Markup(InputOpen) && f[3] == Data(tableID + "Input")
      && f[5] == Data(tableID) && f[7] == Data(tableID + "Input") && f[9] == Data(tableID + "Span")
      && f[11] == Markup(SpanOpen) && f[12] == Data(tableID + "Span")
    ensures tableID + "Input" != tableID + "Span" && tableID + "Input" != tableID && tableID + "Span" != tableID
  {
    assert |tableID + "Input"| != |tableID + "Span"|;
  }

  /**
   * The row label reads back: after its leading blank it splits on blanks into
   * the row count, the noun and "shown"; the noun is "row" for exactly one row
   * and "rows" otherwise (zero included); and Integer.parseInt gives the count back.
   */
  lemma RowLabelReadsBack(n: nat)
    requires n <= MaxInt
    ensures RowLabelText(n)[0] == ' '
    ensures Split(RowLabelText(n)[1..], Literal(' ')) == [IntToString(n), if n == 1 then "row" else "rows", "shown"]
    ensures ParseInt(IntToString(n)) == Some(n)
  {
    var noun := if n == 1 then "row" else "rows";
    var fields := [IntToString(n), noun, "shown"];
    calc {
      Glue(fields, [" ", " "]);
      fields[0] + " " + Glue(fields[1..], [" "]);
      { assert fields[1..][1..] == ["shown"]; }
      fields[0] + " " + (noun + " " + "shown");
      { assert fields[0] + " " + (noun + " " + "shown") == fields[0] + " " + noun + " " + "shown"; }
      IntToString(n) + " " + noun + " shown";
      RowLabelText(n)[1..];
    }
    assert IsField(fields[0], Literal(' ')) by {
      assert AllDigits(NatToString(n));
    }
    SplitGlue(fields, [" ", " "], Literal(' '));
    ParseIntOfIntToString(n);
  }
}
