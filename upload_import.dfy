/** The import endpoint (`UploadImport.post`): request validation, the
    confirmed-selection filter, the Excel sheet loop, the CSV branch with its
    readers, lower-casing, renames, duplicate resolution and the taxonomy
    side table. */
module UploadImport {
  import opened Wrappers
  import opened Text
  import opened Frames
  import opened ColumnOps
  import opened CsvReaders
  import DelimiterSniffer
  import HeaderMode

  /** What the client confirmed for one sheet. */
  datatype Selection = Selection(confirmed: bool, headerMode: Option<string>,
                                 renames: map<string, string>, duplicateKeep: seq<(string, int)>)

  /** The JSON body: `selections` is an object, here its (sheet, selection) pairs in order. */
  datatype Request = Request(fileName: Option<string>, fileType: Option<string>,
                             selections: seq<(string, Selection)>)

  /** One element of the `imported` list. */
  datatype Entry = Entry(sheet: string, rows: nat, cols: nat, outName: string, importedToDb: bool)

  datatype Response = Response(status: nat, message: string, imported: seq<Entry>)

  /** An Excel workbook: a sheet missing from a map makes that read raise. */
  datatype Workbook = Workbook(headed: map<string, Frame>, headerless: map<string, Frame>)

  /** A CSV file on disk and the outcomes pandas gives for it: `lines` is None
      when the file cannot be opened; the strategy outcomes depend on the separator. */
  datatype CsvSource = CsvSource(lines: Option<seq<string>>,
                                 attempts: Option<char> -> seq<Option<Frame>>,
                                 lenient: Option<char> -> Option<Frame>,
                                 lastResort: Option<Frame>,
                                 plainRead: Option<Frame>)

  /** The taxonomy table: whether the database block runs without raising, and
      which rows `Taxonomy.create_from_dict` accepts. */
  datatype TaxonomyDb = TaxonomyDb(available: bool, creates: nat -> bool)

  function Rejected(message: string): Response {
    Response(400, message, [])
  }

  const Failed := Response(500, "Import failed", [])

  predicate Missing(s: Option<string>) {
    s.None? || s.value == ""
  }

  /** The 400 answers, checked in order, the file lookup last. */
  function Validate(req: Request, fileExists: bool): (r: Option<Response>)
    ensures r.Some? ==> r.value.status == 400 && r.value.imported == []
    ensures r.None? <==> !Missing(req.fileName) && !Missing(req.fileType) && req.selections != [] && fileExists
  {
    if Missing(req.fileName) then Some(Rejected("file_name is required"))
    else if Missing(req.fileType) then Some(Rejected("file_type is required"))
    else if req.selections == [] then Some(Rejected("No sheet selections provided"))
    else if !fileExists then Some(Rejected("File not found on server"))
    else None
  }

  predicate IsSkip(sel: Selection) {
    sel.headerMode == Some("skip_first_row")
  }

  // ---------------------------------------------------------------------------
  // `os.path.splitext` and the output names.
  // ---------------------------------------------------------------------------

  predicate AllDots(s: string) {
    forall k :: 0 <= k < |s| ==> s[k] == '.'
  }

  /** `os.path.splitext` on a POSIX path: the extension starts at the last '.'
      of the last path component, unless only dots precede it there. */
  function Splitext(p: string): (r: (string, string))
    ensures r.0 + r.1 == p
    ensures r.1 == "" || (r.1[0] == '.' && '/' !in r.1 && '.' !in r.1[1..])
  {
    var dot := LastIndexOfChar(p, '.');
    var slash := LastIndexOfChar(p, '/');
    var start := if slash.Some? then slash.value + 1 else 0;
    if dot.Some? && dot.value >= start && !AllDots(p[start..dot.value]) then
      assert p[..dot.value] + p[dot.value..] == p;
      (p[..dot.value], p[dot.value..])
    else
      (p, "")
  }

  /** The extension is cut at the last dot. */
  lemma SplitextCutsLastDot(p: string)
    requires p == "run.2.csv"
    ensures Splitext(p) == ("run.2", ".csv")
  {
    assert p[5] == '.' && forall k :: 5 < k < |p| ==> p[k] != '.';
    assert LastIndexOfChar(p, '.') == Some(5);
    assert '/' !in p;
    assert LastIndexOfChar(p, '/') == None;
    assert !AllDots(p[0..5]) by { assert p[0..5][0] == 'r'; }
    assert p[..5] == "run.2" && p[5..] == ".csv";
  }

  /** A leading dot does not start an extension. */
  lemma SplitextLeadingDot(p: string)
    requires p == ".env"
    ensures Splitext(p) == (".env", "")
  {
    assert p[0] == '.' && forall k :: 0 < k < |p| ==> p[k] != '.';
    assert '/' !in p;
  }

  function ExcelOutName(fileName: string, sheet: string): string {
    "import_" + Splitext(fileName).0 + "_" + sheet + ".csv"
  }

  function CsvOutName(fileName: string): string {
    "import_" + Splitext(fileName).0 + ".csv"
  }

  // ---------------------------------------------------------------------------
  // Renames and duplicate resolution, shared by both branches.
  // ---------------------------------------------------------------------------

  /** The frame after `df.rename(columns=renames)` and the `duplicate_keep` loop. */
  function Shaped(df: Frame, sel: Selection): Frame {
    ResolveAllAsWritten(Rename(df, sel.renames), sel.duplicateKeep)
  }

  method ApplySelection(df: Frame, sel: Selection) returns (g: Frame)
    ensures g == Shaped(df, sel)
  {
    g := df;
    if sel.renames != map[] {
      g := Rename(g, sel.renames);
    } else {
      assert Rename(g, sel.renames) == g;
    }
    g := ApplyDuplicateKeep(g, sel.duplicateKeep);
  }

  function EntryFor(sheet: string, df: Frame, outName: string): Entry {
    Entry(sheet, |df.rows|, |df.labels|, outName, false)
  }

  // ---------------------------------------------------------------------------
  // Excel branch.
  // ---------------------------------------------------------------------------

  /** The sheet as read in its header mode; None when the read raises. */
  function ExcelSheetFrame(book: Workbook, sheet: string, sel: Selection): Option<Frame> {
    if IsSkip(sel) then
      (if sheet in book.headerless then Some(PromoteAfterSkip(book.headerless[sheet])) else None)
    else
      (if sheet in book.headed then Some(book.headed[sheet]) else None)
  }

  function ExcelSheetEntry(fileName: string, book: Workbook, sheet: string, sel: Selection): Option<Entry> {
    var df := ExcelSheetFrame(book, sheet, sel);
    if df.None? then None
    else Some(EntryFor(sheet, Shaped(df.value, sel), ExcelOutName(fileName, sheet)))
  }

  /** The `imported` list after the sheet loop, or None when some confirmed sheet's read raised. */
  function ExcelEntries(fileName: string, book: Workbook, sels: seq<(string, Selection)>): Option<seq<Entry>> {
    if sels == [] then Some([])
    else
      var prev := ExcelEntries(fileName, book, sels[..|sels| - 1]);
      var (sheet, sel) := sels[|sels| - 1];
      if prev.None? || !sel.confirmed then prev
      else
        var e := ExcelSheetEntry(fileName, book, sheet, sel);
        if e.None? then None else Some(prev.value + [e.value])
  }

  method ImportExcel(fileName: string, book: Workbook, sels: seq<(string, Selection)>)
    returns (imported: Option<seq<Entry>>)
    ensures imported == ExcelEntries(fileName, book, sels)
  {
    var acc: seq<Entry> := [];
    var i := 0;
    while i < |sels|
      invariant 0 <= i <= |sels|
      invariant ExcelEntries(fileName, book, sels[..i]) == Some(acc)
    {
      assert sels[..i + 1][..i] == sels[..i];
      var (sheet, sel) := sels[i];
      if sel.confirmed {
        var df: Frame;
        if IsSkip(sel) {
          if sheet !in book.headerless {
            assert ExcelSheetEntry(fileName, book, sheet, sel).None?;
            ExcelFailurePersists(fileName, book, sels, i + 1);
            return None;
          }
          df := book.headerless[sheet];
          df := PromoteAfterSkip(df);
        } else {
          if sheet !in book.headed {
            assert ExcelSheetEntry(fileName, book, sheet, sel).None?;
            ExcelFailurePersists(fileName, book, sels, i + 1);
            return None;
          }
          df := book.headed[sheet];
        }
        df := ApplySelection(df, sel);
        acc := acc + [EntryFor(sheet, df, ExcelOutName(fileName, sheet))];
      }
      i := i + 1;
    }
    assert sels[..i] == sels;
    return Some(acc);
  }

  /** Once a confirmed sheet fails, the whole import fails. */
  lemma {:induction false} ExcelFailurePersists(fileName: string, book: Workbook, sels: seq<(string, Selection)>, n: nat)
    requires n <= |sels| && ExcelEntries(fileName, book, sels[..n]).None?
    ensures ExcelEntries(fileName, book, sels).None?
  {
    if n < |sels| {
      assert sels[..|sels| - 1][..n] == sels[..n];
      ExcelFailurePersists(fileName, book, sels[..|sels| - 1], n);
    } else {
      assert sels[..n] == sels;
    }
  }

  /** The confirmed selections, in order. */
  function Confirmed(sels: seq<(string, Selection)>): (r: seq<(string, Selection)>)
    ensures |r| <= |sels|
    ensures forall k :: 0 <= k < |r| ==> r[k].1.confirmed && r[k] in sels
  {
    if sels == [] then []
    else Confirmed(sels[..|sels| - 1]) + (if sels[|sels| - 1].1.confirmed then [sels[|sels| - 1]] else [])
  }

  /** Unconfirmed sheets contribute nothing: the result is the one for the confirmed
      sheets alone, with one entry per confirmed sheet, named after it. */
  lemma {:induction false} UnconfirmedSkipped(fileName: string, book: Workbook, sels: seq<(string, Selection)>)
    ensures ExcelEntries(fileName, book, sels) == ExcelEntries(fileName, book, Confirmed(sels))
    ensures ExcelEntries(fileName, book, sels).Some? ==>
              |ExcelEntries(fileName, book, sels).value| == |Confirmed(sels)|
              && forall k :: 0 <= k < |Confirmed(sels)| ==>
                   ExcelEntries(fileName, book, sels).value[k].sheet == Confirmed(sels)[k].0
  {
    if sels != [] {
      var init := sels[..|sels| - 1];
      UnconfirmedSkipped(fileName, book, init);
      var c := Confirmed(init);
      if sels[|sels| - 1].1.confirmed {
        assert Confirmed(sels) == c + [sels[|sels| - 1]];
        assert Confirmed(sels)[..|Confirmed(sels)| - 1] == c;
      } else {
        assert Confirmed(sels) == c;
      }
    }
  }

  /** An Excel sheet in skip mode gets the framing the analyzer proposed for it. */
  lemma ExcelSkipMatchesAnalyzer(book: Workbook, sheet: string, sel: Selection, firstRead: Option<Frame>)
    requires IsSkip(sel) && sheet in book.headerless
    ensures ExcelSheetFrame(book, sheet, sel) == Some(HeaderMode.AnalyzerFramings(firstRead, Some(book.headerless[sheet])).1)
  {
  }

  // ---------------------------------------------------------------------------
  // CSV branch.
  // ---------------------------------------------------------------------------

  /** The first line the robust reader reads for its expected width. */
  function FirstLine(lines: Option<seq<string>>): Option<string> {
    if lines.Some? && lines.value != [] then Some(lines.value[0]) else None
  }

  /** The robust reader, and the line-splitting fallback when it raises; None when both raise. */
  function CsvRead(src: CsvSource, sep: Option<char>): Option<Frame> {
    var robust := RobustResult(ExpectedColumns(FirstLine(src.lines), sep),
                               src.attempts(sep), src.lenient(sep), src.lastResort);
    if robust.Some? then robust
    else if src.lines.Some? then Some(FallbackFrame(src.lines.value))
    else src.plainRead
  }

  method ReadCsvFrame(src: CsvSource, sep: Option<char>) returns (df: Option<Frame>)
    ensures df == CsvRead(src, sep)
  {
    df := RobustReadCsv(FirstLine(src.lines), sep, src.attempts(sep), src.lenient(sep), src.lastResort);
    if df.None? {
      df := ReadWithFallbackToLineSplit(src.lines, src.plainRead);
    }
  }

  /** As written: skip mode applies `iloc[1:]` and promotion to a frame whose
      header already took the file's first line. */
  function CsvFramed(df: Frame, sel: Selection): Frame {
    if IsSkip(sel) then PromoteAfterSkip(df) else df
  }

  /** The frame that is saved: framed, lower-cased, renamed, de-duplicated. */
  function CsvShaped(df: Frame, sel: Selection): Frame {
    Shaped(LowerLabels(CsvFramed(df, sel)), sel)
  }

  /** Some column, lower-cased, is a taxonomy identifier. */
  predicate TaxonomyHit(df: Frame, identifiers: set<string>) {
    exists j :: 0 <= j < |df.labels| && Lower(df.labels[j]) in identifiers
  }

  /** Rows 0..n-1 that `create_from_dict` accepts. */
  function Created(n: nat, creates: nat -> bool): (c: nat)
    ensures c <= n
  {
    if n == 0 then 0 else Created(n - 1, creates) + (if creates(n - 1) then 1 else 0)
  }

  /** The entries the CSV branch appends, as written, for a frame `df` that was read. */
  function CsvEntriesFor(fileName: string, df: Frame, sel: Selection, db: TaxonomyDb, identifiers: set<string>): seq<Entry> {
    CsvReport(fileName, CsvShaped(df, sel), db, identifiers)
  }

  /** The selection under the key "CSV", or an unconfirmed empty one. */
  function CsvSelection(sels: seq<(string, Selection)>): Selection {
    if sels == [] then Selection(false, None, map[], [])
    else if sels[0].0 == "CSV" then sels[0].1
    else CsvSelection(sels[1..])
  }

  function CsvEntries(fileName: string, src: CsvSource, sel: Selection, db: TaxonomyDb, identifiers: set<string>): Option<seq<Entry>> {
    if !sel.confirmed then Some([])
    else
      var df := CsvRead(src, DelimiterSniffer.Sniff(src.lines));
      if df.None? then None else Some(CsvEntriesFor(fileName, df.value, sel, db, identifiers))
  }

  method ImportCsv(fileName: string, src: CsvSource, sel: Selection, db: TaxonomyDb, identifiers: set<string>)
    returns (imported: Option<seq<Entry>>)
    ensures imported == CsvEntries(fileName, src, sel, db, identifiers)
  {
    if !sel.confirmed {
      return Some([]);
    }
    var sep := DelimiterSniffer.DetectDelimiter(src.lines);
    var read := ReadCsvFrame(src, sep);
    if read.None? {
      return None;
    }
    var df := read.value;
    if IsSkip(sel) {
      df := PromoteAfterSkip(df);
    }
    df := LowerLabels(df);
    df := ApplySelection(df, sel);
    var entries := ReportCsv(fileName, df, db, identifiers);
    imported := Some(entries);
  }

  /** The entries for the saved frame `out`: the taxonomy entry first when the
      database block ran, then the plain one. */
  function CsvReport(fileName: string, out: Frame, db: TaxonomyDb, identifiers: set<string>): seq<Entry> {
    var name := CsvOutName(fileName);
    var plain := EntryFor("CSV", out, name);
    if TaxonomyHit(out, identifiers) && db.available then
      [Entry("CSV", Created(|out.rows|, db.creates), |out.labels|, name, true), plain]
    else [plain]
  }

  method ReportCsv(fileName: string, out: Frame, db: TaxonomyDb, identifiers: set<string>) returns (acc: seq<Entry>)
    ensures acc == CsvReport(fileName, out, db, identifiers)
  {
    var name := CsvOutName(fileName);
    acc := [];
    if TaxonomyHit(out, identifiers) && db.available {
      var added := CountCreated(|out.rows|, db.creates);
      acc := acc + [Entry("CSV", added, |out.labels|, name, true)];
    }
    acc := acc + [EntryFor("CSV", out, name)];
  }

  /** The `records_added` counter of the taxonomy loop. */
  method CountCreated(n: nat, creates: nat -> bool) returns (added: nat)
    ensures added == Created(n, creates)
  {
    added := 0;
    var i := 0;
    while i < n
      invariant 0 <= i <= n
      invariant added == Created(i, creates)
    {
      if creates(i) {
        added := added + 1;
      }
      i := i + 1;
    }
  }

  /** After lower-casing, a rename key with an upper-case letter renames nothing. */
  lemma CsvUpperCaseRenameIgnored(df: Frame, sel: Selection)
    requires forall key :: key in sel.renames ==> HasUpper(key)
    ensures CsvShaped(df, sel) == ResolveAllAsWritten(LowerLabels(CsvFramed(df, sel)), sel.duplicateKeep)
  {
    UpperCaseRenameKeysIgnored(CsvFramed(df, sel), sel.renames);
  }

  // ---------------------------------------------------------------------------
  // The endpoint.
  // ---------------------------------------------------------------------------

  predicate IsExcel(fileType: string) {
    fileType in {"xlsx", "xls"}
  }

  function ImportResponse(req: Request, fileExists: bool, book: Option<Workbook>, src: CsvSource,
                          db: TaxonomyDb, identifiers: set<string>): Response
  {
    var rejected := Validate(req, fileExists);
    if rejected.Some? then rejected.value
    else
      var fileName := req.fileName.value;
      var imported :=
        if IsExcel(req.fileType.value) then
          (if book.None? then None else ExcelEntries(fileName, book.value, req.selections))
        else CsvEntries(fileName, src, CsvSelection(req.selections), db, identifiers);
      if imported.None? then Failed else Response(200, "Import completed", imported.value)
  }

  /** `UploadImport.post` after the JSON body is parsed; `fileExists` is the
      answer for the secured name in the user's folder, `book` the workbook
      (None when it cannot be opened). */
  method Import(req: Request, fileExists: bool, book: Option<Workbook>, src: CsvSource,
                db: TaxonomyDb, identifiers: set<string>) returns (resp: Response)
    ensures resp == ImportResponse(req, fileExists, book, src, db, identifiers)
    ensures resp.status in {200, 400, 500}
  {
    var rejected := Validate(req, fileExists);
    if rejected.Some? {
      return rejected.value;
    }
    var fileName := req.fileName.value;
    var imported: Option<seq<Entry>>;
    if IsExcel(req.fileType.value) {
      if book.None? {
        return Failed;
      }
      imported := ImportExcel(fileName, book.value, req.selections);
    } else {
      imported := ImportCsv(fileName, src, CsvSelection(req.selections), db, identifiers);
    }
    if imported.None? {
      return Failed;
    }
    return Response(200, "Import completed", imported.value);
  }

  /** A request without a file name, a file type or a selection is refused with
      400 whatever is on disk: the file is not looked for. */
  lemma IncompleteRequestRejected(req: Request, fileExists: bool, book: Option<Workbook>, src: CsvSource,
                                  db: TaxonomyDb, identifiers: set<string>)
    requires Missing(req.fileName) || Missing(req.fileType) || req.selections == []
    ensures ImportResponse(req, fileExists, book, src, db, identifiers).status == 400
    ensures ImportResponse(req, fileExists, book, src, db, identifiers)
            == ImportResponse(req, true, None, src, db, identifiers)
  {
  }

  /** Any file type other than xlsx/xls goes through the CSV branch, which reads
      only the selection named "CSV". */
  lemma OtherTypesReadAsCsv(req: Request, book: Option<Workbook>, src: CsvSource, db: TaxonomyDb,
                            identifiers: set<string>)
    requires !Missing(req.fileName) && !Missing(req.fileType) && req.selections != []
    requires !IsExcel(req.fileType.value)
    requires !CsvSelection(req.selections).confirmed
    ensures ImportResponse(req, true, book, src, db, identifiers) == Response(200, "Import completed", [])
  {
  }

  // ---------------------------------------------------------------------------
  // Findings: the CSV skip framing and the taxonomy double report.
  // ---------------------------------------------------------------------------

  /** The header-less read of the file a headed frame came from: the header line
      becomes data row 0 and the labels are the positions. */
  function Headerless(f: Frame): (r: Frame)
    ensures |r.rows| == |f.rows| + 1 && |r.labels| == |f.labels|
  {
    Frame(PositionLabels(|f.labels|), [seq(|f.labels|, j requires 0 <= j < |f.labels| => Some(f.labels[j]))] + f.rows)
  }

  /** As written, skip mode takes the header from the second data row (file line 3)
      while the analyzer's framing of the same file takes it from the first
      (file line 2). */
  lemma CsvSkipOffByOne(f: Frame)
    requires |f.rows| >= 2 && |f.labels| > 0
    ensures PromoteAfterSkip(f).labels == LabelsOf(f.rows[1])
    ensures HeaderMode.AnalyzerFramings(None, Some(Headerless(f))).1.labels == LabelsOf(f.rows[0])
    ensures PromoteAfterSkip(f).rows == f.rows[2..]
  {
    var h := Headerless(f);
    assert h.rows[1..] == f.rows;
  }

  /** A two-row file body where the two framings disagree. */
  lemma CsvSkipCounterexample()
    ensures CsvFramed(Frame(["a"], [[Some("b")], [Some("c")]]), Selection(true, Some("skip_first_row"), map[], [])).labels == ["c"]
    ensures IntendedCsvFramed(Frame(["a"], [[Some("b")], [Some("c")]]), Selection(true, Some("skip_first_row"), map[], [])).labels == ["b"]
  {
    CsvSkipOffByOne(Frame(["a"], [[Some("b")], [Some("c")]]));
    IntendedSkipIsAnalyzers(Frame(["a"], [[Some("b")], [Some("c")]]));
  }

  /** As intended: skip mode frames the file as the analyzer did. */
  function IntendedCsvFramed(df: Frame, sel: Selection): Frame {
    if IsSkip(sel) then PromoteAfterSkip(Headerless(df)) else df
  }

  /** The intended skip framing promotes the first data row (file line 2) and
      keeps every later row, the framing the analyzer proposed. */
  lemma IntendedSkipIsAnalyzers(f: Frame)
    requires |f.rows| >= 1 && |f.labels| > 0
    ensures PromoteAfterSkip(Headerless(f)).labels == LabelsOf(f.rows[0])
    ensures PromoteAfterSkip(Headerless(f)).rows == f.rows[1..]
    ensures PromoteAfterSkip(Headerless(f)) == HeaderMode.AnalyzerFramings(None, Some(Headerless(f))).1
  {
    var h := Headerless(f);
    assert h.rows[1..] == f.rows;
  }

  /** As written, a CSV file whose columns hit the taxonomy identifiers is
      reported twice under the sheet name "CSV". */
  lemma TaxonomyCsvReportedTwice(fileName: string, df: Frame, sel: Selection, db: TaxonomyDb, identifiers: set<string>)
    requires db.available && TaxonomyHit(CsvShaped(df, sel), identifiers)
    ensures |CsvEntriesFor(fileName, df, sel, db, identifiers)| == 2
    ensures CsvEntriesFor(fileName, df, sel, db, identifiers)[0].sheet == "CSV"
    ensures CsvEntriesFor(fileName, df, sel, db, identifiers)[1].sheet == "CSV"
  {
  }

  /** As intended: one entry for the CSV file, flagged when its rows went to the
      taxonomy table and then counting the rows stored. */
  function IntendedCsvEntry(fileName: string, df: Frame, sel: Selection, db: TaxonomyDb, identifiers: set<string>): Entry {
    var out := Shaped(LowerLabels(IntendedCsvFramed(df, sel)), sel);
    var name := CsvOutName(fileName);
    if TaxonomyHit(out, identifiers) && db.available then
      Entry("CSV", Created(|out.rows|, db.creates), |out.labels|, name, true)
    else EntryFor("CSV", out, name)
  }

  /** The intended entry carries the saved frame's width and, for a taxonomy
      file, never more rows than the frame has. */
  lemma IntendedCsvReportedOnce(fileName: string, df: Frame, sel: Selection, db: TaxonomyDb, identifiers: set<string>)
    ensures IntendedCsvEntry(fileName, df, sel, db, identifiers).cols
            == |Shaped(LowerLabels(IntendedCsvFramed(df, sel)), sel).labels|
    ensures IntendedCsvEntry(fileName, df, sel, db, identifiers).rows
            <= |Shaped(LowerLabels(IntendedCsvFramed(df, sel)), sel).rows|
    ensures IntendedCsvEntry(fileName, df, sel, db, identifiers).importedToDb
            <==> db.available && TaxonomyHit(Shaped(LowerLabels(IntendedCsvFramed(df, sel)), sel), identifiers)
  {
  }
}
