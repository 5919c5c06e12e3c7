/**
 * QueriesJsonHtmlReport: which page the queries.json report shows, and the two
 * parts of it that the report builds itself: the files-searched table and the
 * summary table.
 *
 * The charts and top-N tables come from reporters and writers outside this
 * model; the dispatch only needs the query count, the bucket size and the time
 * range. Instants are epoch milliseconds. The values the summary table shows
 * through foreign formatters (dates, the human-readable span, grouped numbers,
 * the rate, the tool version) are given as parameters.
 */
module QueriesJsonHtmlReport {
  import opened Wrappers
  import opened JavaText
  import HtmlTableBuilder
  import Sorting

  /** One input file: its name, how many queries were parsed and kept by the date filter, and the parse error ("" if none). */
  datatype SearchedFile = SearchedFile(name: string, parsed: int, filtered: int, errorText: string)

  /** The report's inputs that its own code reads. */
  datatype QueriesReport = QueriesReport(
    files: seq<SearchedFile>,
    startFilter: string,      // the start filter instant, as printed
    endFilter: string,        // the end filter instant, as printed
    bucketSize: int,
    totalQueries: int,
    start: int,               // first query start, epoch milliseconds
    end: int)                 // last query end, epoch milliseconds

  // ---------------------------------------------------------------------------
  // getFailedParses: the filters and files-searched tables
  // ---------------------------------------------------------------------------

  /**
   * The fixed markup getFailedParses appends. The formatted filters table is
   * split at its two %s slots into FiltersOpen, FiltersBetween and FiltersClose.
   */
  datatype Piece =
    | FiltersOpen | FiltersBetween | FiltersClose
    | FilesHeading | FilesTableOpen
    | RowOpen          // <tr><td>
    | CellBreak        // </td><td>
    | ErrorCellBreak   // </td><td class="tooltip-pr">
    | RowClose         // </td></tr>
    | FilesTableClose

  /** One append: fixed markup, or text that comes from the input. */
  datatype Chunk = Markup(piece: Piece) | Data(text: string)

  /** The row of one searched file: name, parsed count, filtered count, error. */
  function FileRow(f: SearchedFile): seq<Chunk> {
    [Markup(RowOpen), Data(f.name), Markup(CellBreak), Data(IntToString(f.parsed)), Markup(CellBreak),
     Data(IntToString(f.filtered)), Markup(ErrorCellBreak), Data(f.errorText), Markup(RowClose)]
  }

  function FileRows(files: seq<SearchedFile>): seq<Chunk> {
    if files == [] then [] else FileRows(files[..|files| - 1]) + FileRow(files[|files| - 1])
  }

  /** The filters table with both filters, then the files table's heading and header row. */
  function FailedParsesHead(startFilter: string, endFilter: string): seq<Chunk> {
    [Markup(FiltersOpen), Data(startFilter), Markup(FiltersBetween), Data(endFilter), Markup(FiltersClose),
     Markup(FilesHeading), Markup(FilesTableOpen)]
  }

  /** The specification of getFailedParses. */
  function FailedParses(startFilter: string, endFilter: string, files: seq<SearchedFile>): seq<Chunk> {
    FailedParsesHead(startFilter, endFilter) + FileRows(files) + [Markup(FilesTableClose)]
  }

  /** getFailedParses: the fixed head, one row per searched file, the close. */
  method GetFailedParses(startFilter: string, endFilter: string, files: seq<SearchedFile>) returns (sb: seq<Chunk>)
    ensures sb == FailedParses(startFilter, endFilter, files)
  {
    sb := [Markup(FiltersOpen), Data(startFilter), Markup(FiltersBetween), Data(endFilter), Markup(FiltersClose)];
    sb := sb + [Markup(FilesHeading)];
    sb := sb + [Markup(FilesTableOpen)];
    ghost var head := sb;
    for i := 0 to |files|
      invariant sb == head + FileRows(files[..i])
    {
      var s := files[i];
      ghost var before := sb;
      sb := sb + [Markup(RowOpen)];
      sb := sb + [Data(s.name)];
      sb := sb + [Markup(CellBreak)];
      sb := sb + [Data(IntToString(s.parsed))];
      sb := sb + [Markup(CellBreak)];
      sb := sb + [Data(IntToString(s.filtered))];
      sb := sb + [Markup(ErrorCellBreak)];
      sb := sb + [Data(s.errorText)];
      sb := sb + [Markup(RowClose)];
      assert sb == before + FileRow(s);
      assert files[..i + 1][..i] == files[..i];
      Sorting.AppendAssoc(head, FileRows(files[..i]), FileRow(s));
    }
    assert files[..|files|] == files;
    sb := sb + [Markup(FilesTableClose)];
  }

  /**
   * The files table has exactly one row per searched file, in input order:
   * row i occupies chunks 9i..9i+8 and is file i's row.
   */
  lemma {:induction false} FileRowsInOrder(files: seq<SearchedFile>, i: nat)
    requires i < |files|
    ensures |FileRows(files)| == 9 * |files|
    ensures FileRows(files)[9 * i..9 * i + 9] == FileRow(files[i])
  {
    var init := files[..|files| - 1];
    FileRowsLength(init);
    if i < |init| {
      FileRowsInOrder(init, i);
      assert init[i] == files[i];
      assert FileRows(files)[9 * i..9 * i + 9] == FileRows(init)[9 * i..9 * i + 9];
    }
  }

  lemma {:induction false} FileRowsLength(files: seq<SearchedFile>)
    ensures |FileRows(files)| == 9 * |files|
  {
    if files != [] {
      FileRowsLength(files[..|files| - 1]);
    }
  }

  /**
   * A file's row carries its counts as decimal text that Integer.parseInt
   * reads back, and its error text verbatim in the tooltip cell.
   */
  lemma FileRowReadsBack(f: SearchedFile)
    requires MinInt <= f.parsed <= MaxInt && MinInt <= f.filtered <= MaxInt
    ensures FileRow(f)[1] == Data(f.name) && FileRow(f)[6..8] == [Markup(ErrorCellBreak), Data(f.errorText)]
    ensures ParseInt(FileRow(f)[3].text) == Some(f.parsed) && ParseInt(FileRow(f)[5].text) == Some(f.filtered)
  {
    var row := FileRow(f);
    assert row[3].text == IntToString(f.parsed) && row[5].text == IntToString(f.filtered);
    assert row[6..8] == [row[6], row[7]];
    ParseIntOfIntToString(f.parsed);
    ParseIntOfIntToString(f.filtered);
  }

  // ---------------------------------------------------------------------------
  // generateSummary
  // ---------------------------------------------------------------------------

  /** The number of searched files whose error text is not empty. */
  function FailedFileCount(files: seq<SearchedFile>): nat {
    if files == [] then 0
    else FailedFileCount(files[..|files| - 1]) + (if files[|files| - 1].errorText != "" then 1 else 0)
  }

  /** The positions of the files that failed to parse. */
  ghost function FailedIndices(files: seq<SearchedFile>): set<int> {
    set i | 0 <= i < |files| && files[i].errorText != ""
  }

  /** The invalid-file count is the number of failed files, never more than the number of files. */
  lemma {:induction false} FailedFileCountIndices(files: seq<SearchedFile>)
    ensures FailedFileCount(files) == |FailedIndices(files)| <= |files|
  {
    if files != [] {
      var n := |files| - 1;
      var init := files[..n];
      FailedFileCountIndices(init);
      assert forall i :: 0 <= i < n ==> files[i] == init[i];
      if files[n].errorText != "" {
        assert FailedIndices(files) == FailedIndices(init) + {n};
      } else {
        assert FailedIndices(files) == FailedIndices(init);
      }
    }
  }

  /** The cell "%d/%d" of invalid and total files. */
  function RatioText(failed: nat, total: nat): string {
    IntToString(failed) + "/" + IntToString(total)
  }

  /** The ratio cell splits on '/' into the two counts, and both read back. */
  lemma RatioReadsBack(failed: nat, total: nat)
    requires total <= MaxInt && failed <= MaxInt
    ensures Split(RatioText(failed, total), Literal('/')) == [IntToString(failed), IntToString(total)]
    ensures ParseInt(IntToString(failed)) == Some(failed) && ParseInt(IntToString(total)) == Some(total)
  {
    var fields := [IntToString(failed), IntToString(total)];
    assert IsField(fields[0], Literal('/'));
    assert IsField(fields[1], Literal('/'));
    assert Glue(fields, ["/"]) == RatioText(failed, total) by {
      assert fields[1..][0] == IntToString(total);
    }
    SplitGlue(fields, ["/"], Literal('/'));
    ParseIntOfIntToString(failed);
    ParseIntOfIntToString(total);
  }

  /** What the foreign formatters print for the summary table. */
  datatype SummaryText = SummaryText(
    firstQueryStart: string,   // Dates.format(start)
    lastQueryEnd: string,      // Dates.format(end)
    timeSpan: string,          // the human-readable duration of end - start
    totalQueries: string,      // "%,d" of the query count
    queriesPerSecond: string,  // "%.2f" of queries per second
    version: string)           // the tool version

  /** col(text): a plain cell, with no sort key and no truncation. */
  function Col(text: string): HtmlTableBuilder.Column {
    HtmlTableBuilder.Column(text, None, false)
  }

  /** The seven name/value rows of the summary table. */
  function SummaryRows(text: SummaryText, files: seq<SearchedFile>): seq<seq<HtmlTableBuilder.Column>> {
    [[Col("first query start"), Col(text.firstQueryStart)],
     [Col("last query end"), Col(text.lastQueryEnd)],
     [Col("time span"), Col(text.timeSpan)],
     [Col("total queries"), Col(text.totalQueries)],
     [Col("average queries per second"), Col(text.queriesPerSecond)],
     [Col("dqd version"), Col(text.version)],
     [Col("invalid/total files"), Col(RatioText(FailedFileCount(files), |files|))]]
  }

  /** The summary: a "No Queries Found" notice, or the summary table. */
  datatype Summary = NoQueriesFound | SummaryTable(table: seq<HtmlTableBuilder.Chunk>)

  /** The specification of generateSummary. */
  function SummaryOf(totalQueries: int, files: seq<SearchedFile>, text: SummaryText): Summary {
    if totalQueries == 0 then NoQueriesFound
    else SummaryTable(HtmlTableBuilder.Table("queriesSummary", "Queries Summary", ["name", "value"],
                                             Some(SummaryRows(text, files))))
  }

  /** generateSummary: the rows are added one by one, then handed to the table builder. */
  method GenerateSummary(totalQueries: int, files: seq<SearchedFile>, text: SummaryText) returns (s: Summary)
    ensures s == SummaryOf(totalQueries, files, text)
  {
    if totalQueries == 0 {
      return NoQueriesFound;
    }
    var rows: seq<seq<HtmlTableBuilder.Column>> := [];
    rows := rows + [[Col("first query start"), Col(text.firstQueryStart)]];
    rows := rows + [[Col("last query end"), Col(text.lastQueryEnd)]];
    rows := rows + [[Col("time span"), Col(text.timeSpan)]];
    rows := rows + [[Col("total queries"), Col(text.totalQueries)]];
    rows := rows + [[Col("average queries per second"), Col(text.queriesPerSecond)]];
    rows := rows + [[Col("dqd version"), Col(text.version)]];
    var failedFileCount := FailedFileCount(files);
    rows := rows + [[Col("invalid/total files"), Col(RatioText(failedFileCount, |files|))]];
    assert rows == SummaryRows(text, files);
    var table := HtmlTableBuilder.GenerateTable("queriesSummary", "Queries Summary", ["name", "value"], Some(rows));
    s := SummaryTable(table);
  }

  /** Each summary row is a name cell and a value cell, both plain. */
  predicate PlainPairs(rows: seq<seq<HtmlTableBuilder.Column>>) {
    forall i :: 0 <= i < |rows| ==> |rows[i]| == 2 && rows[i][0].sortableData.None? && rows[i][1].sortableData.None?
  }

  lemma SummaryRowsPlain(text: SummaryText, files: seq<SearchedFile>)
    ensures |SummaryRows(text, files)| == 7 && PlainPairs(SummaryRows(text, files))
    ensures SummaryRows(text, files)[6][1].data == RatioText(FailedFileCount(files), |files|)
  {
  }

  /** Rows of two plain cells: two cells and no sort key per row. */
  lemma {:induction false} PlainPairsTotals(rows: seq<seq<HtmlTableBuilder.Column>>)
    requires PlainPairs(rows)
    ensures HtmlTableBuilder.ColumnTotal(rows) == 2 * |rows|
    ensures HtmlTableBuilder.SortKeyTotal(rows) == 0
  {
    if rows != [] {
      var last := rows[|rows| - 1];
      PlainPairsTotals(rows[..|rows| - 1]);
      assert last[..1] == [last[0]];
      assert last[..1][..0] == [];
      assert HtmlTableBuilder.SortKeyCount(last[..1]) == 0;
      assert HtmlTableBuilder.SortKeyCount(last) == 0;
    }
  }

  /** A name/value table of plain pairs: two headers, a row per pair, two cells per row, no sort key, the export button. */
  lemma PlainPairsTable(tableID: string, caption: string, rows: seq<seq<HtmlTableBuilder.Column>>)
    requires PlainPairs(rows) && |rows| > 0
    ensures var t := HtmlTableBuilder.Table(tableID, caption, ["name", "value"], Some(rows));
            HtmlTableBuilder.Count(t, HtmlTableBuilder.HeaderCell) == 2 &&
            HtmlTableBuilder.Count(t, HtmlTableBuilder.RowStart) == |rows| &&
            HtmlTableBuilder.CellOpenCount(t) == 2 * |rows| &&
            HtmlTableBuilder.Count(t, HtmlTableBuilder.SortedCell) == 0 &&
            HtmlTableBuilder.Markup(HtmlTableBuilder.ExportButton) in t
  {
    HtmlTableBuilder.TableCounts(tableID, caption, ["name", "value"], Some(rows));
    PlainPairsTotals(rows);
  }

  /**
   * With queries, the summary is a table with the two headers, seven rows of
   * two plain cells (no sort keys) and the export button; its last row's value
   * is the invalid/total files ratio.
   */
  lemma SummaryTableShape(totalQueries: int, files: seq<SearchedFile>, text: SummaryText)
    requires totalQueries != 0
    ensures var s := SummaryOf(totalQueries, files, text);
            s.SummaryTable? &&
            HtmlTableBuilder.Count(s.table, HtmlTableBuilder.HeaderCell) == 2 &&
            HtmlTableBuilder.Count(s.table, HtmlTableBuilder.RowStart) == 7 &&
            HtmlTableBuilder.CellOpenCount(s.table) == 14 &&
            HtmlTableBuilder.Count(s.table, HtmlTableBuilder.SortedCell) == 0 &&
            HtmlTableBuilder.Markup(HtmlTableBuilder.ExportButton) in s.table
    ensures SummaryRows(text, files)[6][1].data == RatioText(FailedFileCount(files), |files|)
  {
    SummaryRowsPlain(text, files);
    PlainPairsTable("queriesSummary", "Queries Summary", SummaryRows(text, files));
  }

  /** The summary of a report with queries lists as many invalid files as failed, out of all files. */
  lemma SummaryCountsFailures(files: seq<SearchedFile>)
    requires |files| <= MaxInt
    ensures Split(RatioText(FailedFileCount(files), |files|), Literal('/')) ==
            [IntToString(|FailedIndices(files)|), IntToString(|files|)]
    ensures |FailedIndices(files)| <= |files|
  {
    FailedFileCountIndices(files);
    RatioReadsBack(FailedFileCount(files), |files|);
  }

  // ---------------------------------------------------------------------------
  // getText and getQueriesJSONHtml: which page is shown
  // ---------------------------------------------------------------------------

  /** The three pages. The charts and query tables of the full report are not modelled. */
  datatype Page =
    | NoQueriesPage(failedParses: seq<Chunk>)
    | BucketTooLargePage(bucketSize: int, durationMillis: int)
    | FullReportPage(summary: Summary, failedParses: seq<Chunk>)

  /** getQueriesJSONHtml: a range shorter than one bucket cannot be charted. */
  function QueriesJsonHtml(r: QueriesReport, text: SummaryText): (p: Page)
    ensures p.BucketTooLargePage? <==> r.end - r.start < r.bucketSize
    ensures p.BucketTooLargePage? ==> p.bucketSize == r.bucketSize && p.durationMillis == r.end - r.start
    ensures p.FullReportPage? ==> p.summary == SummaryOf(r.totalQueries, r.files, text) &&
                                  p.failedParses == FailedParses(r.startFilter, r.endFilter, r.files)
  {
    var durationMillis := r.end - r.start;
    if durationMillis < r.bucketSize then BucketTooLargePage(r.bucketSize, durationMillis)
    else FullReportPage(SummaryOf(r.totalQueries, r.files, text), FailedParses(r.startFilter, r.endFilter, r.files))
  }

  /** getText: no queries is checked first, before the bucket size. */
  function GetText(r: QueriesReport, text: SummaryText): (p: Page)
    ensures p.NoQueriesPage? <==> r.totalQueries == 0
    ensures p.NoQueriesPage? ==> p.failedParses == FailedParses(r.startFilter, r.endFilter, r.files)
    ensures !p.NoQueriesPage? ==> p == QueriesJsonHtml(r, text)
  {
    if r.totalQueries == 0 then NoQueriesPage(FailedParses(r.startFilter, r.endFilter, r.files))
    else QueriesJsonHtml(r, text)
  }

  /**
   * The three pages partition the inputs: no queries; else a range shorter
   * than one bucket (equal is not too short); else the full report, whose
   * summary is the table (never the "No Queries Found" notice), and whose
   * range is positive whenever the bucket size is, so that the average rate is
   * a division by a non-zero span.
   */
  lemma PageDispatch(r: QueriesReport, text: SummaryText)
    ensures GetText(r, text).NoQueriesPage? <==> r.totalQueries == 0
    ensures GetText(r, text).BucketTooLargePage? <==> r.totalQueries != 0 && r.end - r.start < r.bucketSize
    ensures GetText(r, text).FullReportPage? <==> r.totalQueries != 0 && r.end - r.start >= r.bucketSize
    ensures GetText(r, text).FullReportPage? ==>
              GetText(r, text).summary.SummaryTable? && (r.bucketSize > 0 ==> r.end - r.start > 0)
  {
  }

  /** Both pages that list the searched files list every one of them, in order. */
  lemma PagesListEveryFile(r: QueriesReport, text: SummaryText, i: nat)
    requires i < |r.files|
    ensures var p := GetText(r, text);
            !p.BucketTooLargePage? ==>
              var head := |FailedParsesHead(r.startFilter, r.endFilter)|;
              |p.failedParses| == head + 9 * |r.files| + 1 &&
              p.failedParses[head + 9 * i..head + 9 * i + 9] == FileRow(r.files[i])
  {
    FileRowsInOrder(r.files, i);
    var fp := FailedParses(r.startFilter, r.endFilter, r.files);
    var head := FailedParsesHead(r.startFilter, r.endFilter);
    assert fp[|head| + 9 * i..|head| + 9 * i + 9] == FileRows(r.files)[9 * i..9 * i + 9];
  }
}
