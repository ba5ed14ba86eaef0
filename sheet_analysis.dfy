/** `_analyze_csv` and `_analyze_excel`: per sheet, the header framing, the
    column list, the duplicate report, the rename proposals and the detected
    type. Pandas reads are inputs (None when the read raises). */
module SheetAnalysis {
  import opened Wrappers
  import opened Frames
  import opened HeaderMode
  import opened ColumnProfile
  import opened SheetType
  import DelimiterSniffer

  /** The classifier's configuration. */
  datatype Classifier = Classifier(patients: Vocabulary, taxonomy: Vocabulary, suffixes: seq<string>,
                                   close: (string, seq<string>) -> bool)

  datatype Analysis = Analysis(sheetName: string, hasData: bool, headerMode: Mode, columns: seq<string>,
                               duplicates: map<string, seq<nat>>, proposedRenames: map<string, string>,
                               detectedType: Kind)

  /** What the analyzer reports for one sheet, given its two framings. */
  ghost predicate Describes(a: Analysis, name: string, first: Frame, skip: Frame, cfg: Classifier) {
    var chosen := ChooseFraming(first, skip);
    && a.sheetName == name
    && a.headerMode == chosen.mode
    && a.hasData == HasMeaningfulData(chosen.frame)
    && a.columns == Columns(chosen.frame)
    && DuplicateReport(a.columns, a.duplicates)
    && a.proposedRenames == Proposals(a.columns)
    && a.detectedType == Classify(a.columns, cfg.patients, cfg.taxonomy, cfg.suffixes, cfg.close)
  }

  /** Steps C to H of the analyzer for one sheet. */
  method AnalyzeFramings(name: string, first: Frame, skip: Frame, cfg: Classifier) returns (a: Analysis)
    ensures Describes(a, name, first, skip, cfg)
  {
    var chosen := ChooseFraming(first, skip);
    var hasData := HasMeaningfulData(chosen.frame);
    var columns := if hasData then chosen.frame.labels else [];
    var renames := ProposeRenames(columns);
    var _, _, dups := DetectDuplicates(columns);
    var kind := DetectSheetType(columns, cfg.patients, cfg.taxonomy, cfg.suffixes, cfg.close);
    a := Analysis(name, hasData, chosen.mode, columns, dups, renames, kind);
  }

  /** `_analyze_csv`: the sniffed delimiter selects the first-row read
      (`readWith(None)` is the plain `read_csv`); the skip framing comes from
      the header-less read; one result named "CSV". */
  method AnalyzeCsv(file: Option<seq<string>>, readWith: Option<char> -> Option<Frame>,
                    headerless: Option<Frame>, cfg: Classifier)
    returns (results: seq<Analysis>)
    ensures |results| == 1
    ensures var (first, skip) := AnalyzerFramings(readWith(DelimiterSniffer.Sniff(file)), headerless);
            Describes(results[0], "CSV", first, skip, cfg)
  {
    var delim := DelimiterSniffer.DetectDelimiter(file);
    var (first, skip) := AnalyzerFramings(readWith(delim), headerless);
    var a := AnalyzeFramings("CSV", first, skip, cfg);
    results := [a];
  }

  /** One sheet of a workbook: its name and the outcomes of its two reads. */
  datatype SheetReads = SheetReads(name: string, headed: Option<Frame>, headerless: Option<Frame>)

  /** `_analyze_excel`: `book` is None when the workbook cannot be opened (the
      analyzer raises); otherwise one result per sheet, in workbook order. */
  method AnalyzeExcel(book: Option<seq<SheetReads>>, cfg: Classifier) returns (results: Option<seq<Analysis>>)
    ensures book.None? <==> results.None?
    ensures book.Some? ==> |results.value| == |book.value|
    ensures book.Some? ==> forall i :: 0 <= i < |book.value| ==>
              var s := book.value[i];
              var (first, skip) := AnalyzerFramings(s.headed, s.headerless);
              Describes(results.value[i], s.name, first, skip, cfg)
  {
    if book.None? {
      return None;
    }
    var sheets := book.value;
    var acc: seq<Analysis> := [];
    var i := 0;
    while i < |sheets|
      invariant 0 <= i <= |sheets|
      invariant |acc| == i
      invariant forall k :: 0 <= k < i ==>
                  var s := sheets[k];
                  var (first, skip) := AnalyzerFramings(s.headed, s.headerless);
                  Describes(acc[k], s.name, first, skip, cfg)
    {
      var s := sheets[i];
      var (first, skip) := AnalyzerFramings(s.headed, s.headerless);
      var a := AnalyzeFramings(s.name, first, skip, cfg);
      acc := acc + [a];
      i := i + 1;
    }
    return Some(acc);
  }

  /** A sheet without data reports no columns, hence no duplicates, no renames and type unknown. */
  lemma EmptySheetReportsNothing(a: Analysis, name: string, first: Frame, skip: Frame, cfg: Classifier)
    requires Describes(a, name, first, skip, cfg)
    requires !a.hasData
    ensures a.columns == [] && a.duplicates == map[] && a.proposedRenames == map[]
    ensures a.detectedType == Unknown
  {
    EmptyIsUnknown(cfg.patients, cfg.taxonomy, cfg.suffixes, cfg.close);
    forall n
      ensures n !in a.duplicates
    {
      assert Positions([], n) == [];
    }
  }
}
