# MVA2 ingestion and domain logic in Dafny

MVA2 is a Flask application for multiple-myeloma microbiome studies. Users upload patient and taxonomy
spreadsheets (CSV or Excel), confirm how each sheet should be read, and import the rows into patient,
taxonomy and Bracken-abundance tables. This project models the decision logic of that pipeline and the small
domain classes around it, and proves properties of the model.

The modules follow the program's structure:

- `DelimiterSniffer`, `LineSplit`, `Frames`, `CsvReaders`, `HeaderMode`, `ColumnProfile`, `SheetType`,
  `SheetAnalysis`, `ColumnOps` and `UploadImport` cover the upload endpoints in `app/api/uploads.py`:
  - the `,` / `;` / tab sniffer;
  - the single-quote-aware line splitter;
  - the fallback and multi-strategy CSV readers;
  - the choice between a first-row and a skip-first-row header;
  - duplicate-column groups and rename proposals;
  - the sheet classifier;
  - the import phase: request checks, the confirmed-sheet filter, renames, duplicate resolution and the
    `imported` report.
- `TaxonomyModels` covers the `Taxonomy` and `BrackenResult` records: display name, lineage, level,
  annotations, abundance statistics, and timepoints and deltas.
- `BrackenImport` covers the timepoint decomposition of a Bracken table. Each column `<patient><suffix>` is
  stored on the (patient, taxon) record at the suffix's timepoint. It comes in the three script variants
  the repository has.
- `DataMapping` covers the row-to-field mapping of `app/utils/data_mapping.py`.
- `Validators` covers the error-list validators of `app/utils/validators.py`.
- `PatientModel`, `AnalysisModels` and `UserModel` cover the model classes:
  - patient range validation and grouping;
  - analysis status transitions, configuration defaults and saved-view sharing;
  - the login lockout and username derivation.
- `DataExport` covers the CSV export rows and the publication-report pieces of `app/utils/data_export.py`.
- `CsvFix` covers the ragged-CSV repair of `debug_patient_import.py`.
- `Wrappers` and `Text` hold `Option` and the Python string operations the others use: `strip`, `lower`,
  `count`, `join`, `str(int)`.

Classes whose methods update fields in place are Dafny classes with `modifies` clauses:

- `Analysis` and `SavedView`;
- `User`;
- `Patient`;
- `Taxonomy` and `BrackenResult`;
- the `CsvStore` that holds the patient file and its backup.

Step-by-step loops are methods with invariants, proved against specification functions. Pure code is
functions and lemmas.

Where the code and its written description disagree, the model follows the code:

- The delimiter sniffer accepts `,` for 3 commas against 2 semicolons, because `int(2 × 1.5) == 3`.
- When no read strategy of the robust reader gives the expected width, it re-reads leniently rather than
  keeping the last attempt.

Several things outside the model are inputs:

- pandas and openpyxl reads are outcomes, with None when the read raises;
- `difflib` matching is a predicate;
- the configuration vocabularies and the timepoint suffix table are parameters;
- `int()`, `float()` and the ISO-date parser are partial functions;
- clock readings are numbers supplied by the caller.

## Model

| member | source | states |
|---|---|---|
| DelimiterSniffer.DetectDelimiter | app/api/uploads.py:227-263 | one pass over at most the first ten lines keeps the three running tallies equal to the counts of `,` `;` and tab; the answer is the sniffer's decision on those tallies (None for an unreadable or empty file) and is always one of the three candidates |
| DelimiterSniffer.NoCandidateGivesNone | app/api/uploads.py:249-260 | when no sampled line holds any candidate the sniffer gives up |
| DelimiterSniffer.OnlyTenLinesCount | app/api/uploads.py:231-253 | lines after the tenth never change the answer |
| DelimiterSniffer.ChosenDominates | app/api/uploads.py:255-263 | an accepted delimiter occurs at least once, is the first maximal tally in the order `,` `;` tab, and reaches `int(1.5 × other)` for each other tally |
| DelimiterSniffer.DominantIsChosen | app/api/uploads.py:255-263 | conversely, a first-maximal tally that reaches the threshold is accepted |
| DelimiterSniffer.WorkedCases | app/api/uploads.py:259-263 | 3 commas vs 2 semicolons gives `,`; a 5/5 tie gives None; a 1/1 tie gives `,` (the threshold never drops below 1); no occurrences gives None |
| LineSplit.SplitCommasNotInSingleQuotes | app/api/uploads.py:312-343 | the tokenizer returns the cleaned fields of the line: one more field than there are commas outside single quotes, each present field non-empty and stripped, an empty one reported as None |
| LineSplit.ScanLine | app/api/uploads.py:319-335 | the character loop keeps (parts, buffer, quote flag) equal to the scan of the prefix read so far and ends with the stripped parts |
| LineSplit.CleanParts | app/api/uploads.py:336-343 | the cleaning loop maps every part through the field cleaning, in order |
| LineSplit.CleanField | app/api/uploads.py:338-342 | a cleaned field is None or non-empty and stripped |
| LineSplit.ScanCounts | app/api/uploads.py:323-334 | after any prefix the quote flag is set iff an odd number of single quotes was read, and the finished parts are the commas read outside quotes |
| LineSplit.FieldCount | app/api/uploads.py:329-335 | the tokenizer returns one field per comma outside quotes, plus one |
| LineSplit.NoQuotesSplitsEveryComma | app/api/uploads.py:325-331 | a line without single quotes splits at every comma |
| LineSplit.QuotedCommaKept | app/api/uploads.py:325-342 | `'a,b',c` gives two fields, the first `a,b` with its quotes removed |
| LineSplit.UnquoteField | app/api/uploads.py:338-342 | for every text x, the field `'x'` loses the pair and becomes x stripped, or None when x is blank |
| LineSplit.LoneQuoteKept | app/api/uploads.py:340 | a lone single quote is shorter than two characters, so it stays as the field |
| Frames.NonNullPositive | app/api/uploads.py:381-382 | `df.notna().sum().sum()` is positive iff some cell is present |
| Frames.RowNonNullPositive | app/api/uploads.py:381 | a row's non-null count is positive iff one of its cells is present |
| Frames.HasMeaningfulData | app/api/uploads.py:376-382 | a frame of size 0 has no meaningful data; a positive answer means some cell is present, and for a rectangular frame the answer is exactly that |
| Frames.LabelsOf | app/api/uploads.py:643 | a promoted row gives one label per cell; a missing cell becomes the label "nan" |
| Frames.PositionLabels | app/api/uploads.py:636 | a header-less read is labelled by its positions, one per column |
| Frames.PromoteAfterSkip | app/api/uploads.py:639-644 | dropping the first row and promoting the next keeps a rectangular frame rectangular |
| Frames.PromoteTakesSecondRow | app/api/uploads.py:639-644 | with two or more rows the labels come from file row 2 and the data starts at row 3 |
| Frames.PromoteShortFrame | app/api/uploads.py:639-642 | with fewer than two rows the skip framing keeps its labels and has no data |
| CsvReaders.ReadWithFallbackToLineSplit | app/api/uploads.py:346-373 | an unopenable file defers to the plain read; otherwise the result is the fallback frame: header from the first line, one header-wide row per non-blank later line |
| CsvReaders.HeaderLabels | app/api/uploads.py:373 | one label per header field; a missing header field is labelled "None" |
| CsvReaders.Fit | app/api/uploads.py:366-370 | a data line is padded with None or truncated to exactly the header width, keeping its leading fields |
| CsvReaders.LastIndexOf | app/api/uploads.py:371 | the dictionary built per row keeps the last position holding a label |
| CsvReaders.RowOf | app/api/uploads.py:371-373 | the row built from a fitted line has one cell per header label |
| CsvReaders.DataRows | app/api/uploads.py:361-371 | every data row has the header's width |
| CsvReaders.LineRow | app/api/uploads.py:365-371 | the row of one non-blank line has the header's width |
| CsvReaders.FallbackFrame | app/api/uploads.py:357-373 | the fallback frame is rectangular |
| CsvReaders.DataRowsStep | app/api/uploads.py:362-371 | each later line adds one row unless it is blank |
| CsvReaders.DataRowsCount | app/api/uploads.py:362-364 | there is one data row per non-blank line after the header |
| CsvReaders.FallbackShape | app/api/uploads.py:357-373 | an empty file gives the empty frame; otherwise the labels are the first line's fields and the row count is the number of non-blank later lines |
| CsvReaders.RowOfDistinctHeader | app/api/uploads.py:366-371 | with distinct header labels column j holds field j of the line, or None when the line is shorter |
| CsvReaders.RowOfRepeatedLabel | app/api/uploads.py:371 | with a repeated header label every column carrying it holds the same value, that of the last occurrence |
| CsvReaders.FirstAccepted | app/api/uploads.py:296-302 | a strategy outcome returned read without error and matches the expected width (or no width is expected) |
| CsvReaders.RobustReadCsv | app/api/uploads.py:266-309 | the strategy loop returns the first outcome that read and has the header line's width (delimiter count plus one); otherwise the lenient re-read, otherwise the plain default read |
| CsvReaders.FirstAcceptedIsFirst | app/api/uploads.py:296-300 | the chosen strategy is the first accepted one: every earlier one failed or had the wrong width |
| CsvReaders.NoneAcceptedFallsBack | app/api/uploads.py:296-306 | when no strategy is accepted, none is returned and the lenient re-read decides |
| CsvReaders.BlankHeaderAcceptsAny | app/api/uploads.py:274-280 | with a blank or unreadable header line no width is expected, so every successful strategy is accepted |
| HeaderMode.MaxByNonNull | app/api/uploads.py:680-683 | `max` with the non-null key returns a candidate with the greatest count |
| HeaderMode.ChooseCharacterized | app/api/uploads.py:454-479 | the skip-first-row framing is chosen iff it has data and either the first-row framing has none or the skip framing has strictly more non-null cells (a tie keeps the first row); the chosen frame matches the mode |
| HeaderMode.NoDataNoColumns | app/api/uploads.py:675-691 | when neither framing has data the mode is first_row and the column list is empty |
| HeaderMode.Columns | app/api/uploads.py:690-691 | a non-empty column list comes from a frame with data and is its labels |
| ColumnProfile.DetectDuplicates | app/api/uploads.py:718-731 | the `setdefault(...).append(i)` loop maps every column name to exactly its positions, and the second pass keeps exactly the names found at two or more positions, each with all its positions |
| ColumnProfile.PositionsMember | app/api/uploads.py:721-723 | a position is in a name's group iff the column there has that name, so the groups partition the positions |
| ColumnProfile.PositionsAscending | app/api/uploads.py:722-723 | each group lists its positions in ascending order |
| ColumnProfile.PositionsEmpty | app/api/uploads.py:722-723 | a name that does not occur has no positions |
| ColumnProfile.ProposeRenames | app/api/uploads.py:700-712 | the rename loop computes the proposals of a left-to-right scan in which a later occurrence of a marker overwrites an earlier one |
| ColumnProfile.ProposalKeys | app/api/uploads.py:701-709 | a name is proposed for renaming iff it is one of the four case-sensitive date markers and occurs past position 0 |
| ColumnProfile.ProposalFromLastOccurrence | app/api/uploads.py:704-709 | a marker's proposal is its last occurrence's left neighbour, "_", and the marker |
| ColumnProfile.MarkerAtStartNotProposed | app/api/uploads.py:707 | a marker that stands only at position 0 gets no proposal |
| SheetType.LowerAll | app/api/uploads.py:569 | every vocabulary name lower-cased, in order |
| SheetType.MappedCount | app/api/uploads.py:567-576 | the mapped counter never exceeds the number of columns |
| SheetType.CountMapped | app/api/uploads.py:567-576 | the counting loop counts the columns whose lower-cased name is in the lower-cased vocabulary or that fuzzy-match a vocabulary name |
| SheetType.DetectSheetType | app/api/uploads.py:561-600 | the detected type is the classification: patients when a patient identifier is present and at least max(2, n // 2) columns map, else the same test for taxonomy, else bracken when a column ends with a configured suffix, else unknown |
| SheetType.FewColumnsNoDomain | app/api/uploads.py:578-592 | fewer than two columns never reach the threshold of 2, so such a sheet is bracken or unknown |
| SheetType.EmptyIsUnknown | app/api/uploads.py:561-600 | an empty column list is unknown |
| SheetType.AllMapped | app/api/uploads.py:567-576 | when every column maps, the count is the number of columns |
| SheetType.FullVocabularyIsPatients | app/api/uploads.py:565-579 | two or more columns, all in the patient vocabulary, with an identifier among them, make a patient sheet |
| SheetType.BrackenIffSuffix | app/api/uploads.py:595-600 | a bracken verdict rests on a suffixed column, and when neither domain matches, bracken holds iff such a column exists |
| SheetType.SuffixColumnsAreBracken | app/api/uploads.py:595-598 | subject columns ending in `.P` and `.E` classify as bracken when no identifier is present |
| SheetAnalysis.AnalyzeFramings | app/api/uploads.py:656-752 | one sheet's report: the chosen header mode, has_data, the columns, the duplicate report, the rename proposals and the detected type, each as defined for the chosen framing |
| SheetAnalysis.AnalyzeCsv | app/api/uploads.py:604-757 | a CSV analysis yields one report named "CSV", with the first-row read made with the sniffed delimiter and the skip framing from the header-less read |
| SheetAnalysis.AnalyzeExcel | app/api/uploads.py:386-558 | an unopenable workbook gives no result; otherwise one report per sheet, in workbook order, each describing that sheet's two reads |
| SheetAnalysis.EmptySheetReportsNothing | app/api/uploads.py:485-549 | a sheet without data reports no columns, no duplicates, no renames and the type unknown |
| ColumnOps.Occurrences | app/api/uploads.py:1052 | the number of same-named columns is at most the number of columns |
| ColumnOps.OccurrencesZero | app/api/uploads.py:1052 | a name has no columns iff it is not a label |
| ColumnOps.Rename | app/api/uploads.py:1032-1036 | `df.rename(columns=...)` keeps the rows and replaces every label found among the keys, all at once |
| ColumnOps.LowerLabels | app/api/uploads.py:1159-1161 | the CSV import lower-cases every label and keeps the rows |
| ColumnOps.UpperCaseRenameKeysIgnored | app/api/uploads.py:1159-1174 | after lower-casing, a rename key holding an upper-case letter matches no column, so such renames do nothing on a CSV import |
| ColumnOps.Project | app/api/uploads.py:1060 | a frame restricted to some positions keeps those labels, in order, and stays rectangular |
| ColumnOps.ProjectCells | app/api/uploads.py:1060 | column k of a projection holds, in every row, the cells of the k-th chosen column |
| ColumnOps.Others | app/api/uploads.py:1060 | the positions whose label is not the dropped one, which with the dropped ones make up all columns |
| ColumnOps.OthersComplete | app/api/uploads.py:1060 | every position with another label survives |
| ColumnOps.DropLabel | app/api/uploads.py:1059-1060 | `df.drop(columns=[name])` removes every column with that label and only those; the rows keep their count and the frame stays rectangular |
| ColumnOps.DropKeepsOthers | app/api/uploads.py:1060 | every other label survives the drop |
| ColumnOps.ResolveDuplicate | app/api/uploads.py:1051-1061 | the loop over one `duplicate_keep` entry drops the whole group as soon as some position other than the kept one exists (as written) |
| ColumnOps.DuplicateGroupVanishes | app/api/uploads.py:1051-1061 | as written, a group of two or more same-named columns disappears entirely, whatever position the user chose to keep |
| ColumnOps.ApplyDuplicateKeep | app/api/uploads.py:1046-1061 | every `duplicate_keep` entry is applied in order |
| ColumnOps.KeepPositions | app/api/uploads.py:1051-1061 | the positions kept by the intended resolution all lie inside the frame |
| ColumnOps.KeepPositionsCount | app/api/uploads.py:1051-1061 | keeping by position leaves one column of the group when the choice is valid, none otherwise, and removes no other column |
| ColumnOps.KeepOccurrenceKeepsOne | app/api/uploads.py:1051-1061 | the intended resolution: a valid choice leaves exactly one column of the group and every other column; an out-of-range choice removes the group |
| ColumnOps.PositionsCount | app/api/uploads.py:721-723 | a group lists one position per occurrence of its name |
| ColumnOps.PositionsAtOccurrence | app/api/uploads.py:721-723 | a group column at position p is the group entry whose index is the number of same-named columns before p |
| ColumnOps.KeepPositionsMember | app/api/uploads.py:1051-1061 | a position is kept exactly when its column is outside the group or is the group's `keepIdx`-th member |
| ColumnOps.KeepPositionsAscending | app/api/uploads.py:1051-1061 | the kept positions ascend, so the surviving columns keep their order |
| ColumnOps.KeepOccurrenceKeepsChosen | app/api/uploads.py:1051-1061 | the intended resolution keeps exactly the columns outside the group and the group's chosen position from the analyzer's duplicate report, in their original order, each with its own label and cells |
| UploadImport.Validate | app/api/uploads.py:936-966 | a request is refused with 400 and nothing imported iff the file name or type is missing or empty, no selection is given, or the file is not on the server; the checks run in that order |
| UploadImport.Splitext | app/api/uploads.py:1075 | `os.path.splitext`: root and extension put back together give the name, and the extension is empty or starts with the last dot of the last path component |
| UploadImport.SplitextCutsLastDot | app/api/uploads.py:1209 | `run.2.csv` splits into `run.2` and `.csv` |
| UploadImport.SplitextLeadingDot | app/api/uploads.py:1209 | a leading dot does not start an extension (`.env` has none) |
| UploadImport.ApplySelection | app/api/uploads.py:1029-1061 | the selection's renames, when any, then every `duplicate_keep` entry in order |
| UploadImport.ImportExcel | app/api/uploads.py:984-1097 | the sheet loop skips unconfirmed sheets, reads each confirmed one in its header mode, shapes it and appends one entry with its row and column counts; a read that raises fails the whole import |
| UploadImport.ExcelFailurePersists | app/api/uploads.py:977-1097 | once a confirmed sheet fails, the whole import fails |
| UploadImport.Confirmed | app/api/uploads.py:990-993 | the confirmed selections, in order |
| UploadImport.UnconfirmedSkipped | app/api/uploads.py:985-1097 | unconfirmed sheets contribute nothing: the outcome is that of the confirmed sheets alone, with one entry per confirmed sheet, named after it |
| UploadImport.ExcelSkipMatchesAnalyzer | app/api/uploads.py:1001-1016 | an Excel sheet in skip mode gets the framing the analyzer proposed for it |
| UploadImport.ReadCsvFrame | app/api/uploads.py:1120-1152 | the robust reader's frame, or the line-splitting reader's when it raises |
| UploadImport.Created | app/api/uploads.py:1241-1251 | the rows stored in the taxonomy table never exceed the rows read |
| UploadImport.CountCreated | app/api/uploads.py:1241-1251 | the `records_added` counter counts the rows `create_from_dict` accepts |
| UploadImport.ImportCsv | app/api/uploads.py:1100-1266 | an unconfirmed "CSV" selection imports nothing; otherwise the file is read with the sniffed delimiter, framed as written, lower-cased, renamed, de-duplicated and reported |
| UploadImport.ReportCsv | app/api/uploads.py:1226-1266 | the taxonomy entry (rows stored, `imported_to_db`) comes first when the columns hit a taxonomy identifier and the database block runs; the plain entry always follows |
| UploadImport.CsvUpperCaseRenameIgnored | app/api/uploads.py:1159-1174 | on a CSV import a rename key holding an upper-case letter renames nothing |
| UploadImport.Import | app/api/uploads.py:916-1286 | the endpoint answers 400 for a refused request, 500 when a read raises, else 200 with the imported entries of the Excel or the CSV branch |
| UploadImport.IncompleteRequestRejected | app/api/uploads.py:936-948 | a request without a file name, a file type or a selection gets 400 whatever is on disk |
| UploadImport.OtherTypesReadAsCsv | app/api/uploads.py:1099-1104 | a file type other than xlsx/xls takes the CSV branch, which reads only the selection named "CSV"; when that one is not confirmed the import succeeds with nothing imported |
| UploadImport.Headerless | app/api/uploads.py:636 | the header-less read of a file has the header line as an extra first row |
| UploadImport.CsvSkipOffByOne | app/api/uploads.py:1120-1140 | as written, skip mode on a CSV takes its header from file line 3, while the analyzer's skip framing of the same file takes it from file line 2 |
| UploadImport.CsvSkipCounterexample | app/api/uploads.py:1120-1140 | on the file `a`/`b`/`c` the import promotes `c` while the intended framing promotes `b` |
| UploadImport.IntendedSkipIsAnalyzers | app/api/uploads.py:636-644 | the corrected skip framing promotes file line 2, keeps every later line, and equals the analyzer's framing |
| UploadImport.TaxonomyCsvReportedTwice | app/api/uploads.py:1256-1266 | as written, a CSV file that reaches the taxonomy table is reported twice under the sheet name "CSV" |
| UploadImport.IntendedCsvReportedOnce | app/api/uploads.py:1241-1266 | the corrected report is one entry with the saved frame's width, at most its row count, flagged exactly when the rows went to the taxonomy table |
| DataMapping.MapPatientColumns | app/utils/data_mapping.py:8-19 | patient rows are handed back unchanged |
| DataMapping.Clean | app/utils/data_mapping.py:39-48 | a non-text value passes unchanged; text becomes absent or non-empty stripped text; unquoted text is just stripped, and empty text becomes absent |
| DataMapping.CleanUnquotes | app/utils/data_mapping.py:43-47 | for every text x and q either `'` or `"`, the value q+x+q loses the pair and becomes x stripped, or absent when x is blank |
| DataMapping.LoneQuoteIsAbsent | app/utils/data_mapping.py:43-47 | a lone quote character starts and ends with the quote, so it is stripped to nothing and becomes absent |
| DataMapping.MapItem | app/utils/data_mapping.py:56-73 | one column: a missing name is skipped; otherwise the cleaned value goes to the mapped field when that field is allowed, and no other field changes |
| DataMapping.MapItems | app/utils/data_mapping.py:51-73 | only allowed model fields are ever set |
| DataMapping.MapTaxonomyColumns | app/utils/data_mapping.py:22-75 | None or an empty row gives {}; otherwise the loop fills the mapping column by column, and only allowed fields appear |
| DataMapping.MapColumns | app/utils/data_mapping.py:56-73 | the column loop builds the mapping of its items in order, a later column overwriting an earlier one on the same field |
| DataMapping.MappedFieldPresent | app/utils/data_mapping.py:56-73 | a field is present iff some column maps to it |
| DataMapping.LastColumnWins | app/utils/data_mapping.py:56-73 | a field holds the cleaned value of the last column that maps to it |
| DataMapping.RenamedColumns | app/utils/data_mapping.py:59-67 | the columns `Class` and `TAXONOMY` are read as `class_name` and `full_taxonomy` |
| TaxonomyModels.FirstNonBlank | app/models/taxonomy.py:81-85 | the first level with a non-blank value, every earlier level being blank; None when all are blank |
| TaxonomyModels.LineagePartsShape | app/models/taxonomy.py:89-98 | the lineage has no parts iff every level is blank, and no part is empty |
| TaxonomyModels.Taxonomy.constructor | app/models/taxonomy.py:70-74 | a new row holds the given id and lineage, no annotations, and statistics at 0 |
| TaxonomyModels.Taxonomy.Lineage | app/models/taxonomy.py:90-91 | the seven levels from domain to species, each with a non-empty title |
| TaxonomyModels.Taxonomy.MostSpecificFirst | app/models/taxonomy.py:102-103 | the same seven levels, species first |
| TaxonomyModels.Taxonomy.GetDisplayName | app/models/taxonomy.py:79-85 | the display name is the value of the first non-blank level in species, genus, family, order, class, phylum, domain order; the taxonomy id when every level is blank |
| TaxonomyModels.Taxonomy.GetTaxonomicLevel | app/models/taxonomy.py:100-110 | the name of the first non-blank level in species-to-domain order (`class` for the class level); "unknown" exactly when every level is blank |
| TaxonomyModels.Taxonomy.DisplayNameAtLevel | app/models/taxonomy.py:79-110 | the display name and the reported level come from the same level: the name is that level's non-blank value |
| TaxonomyModels.Taxonomy.GetFullLineage | app/models/taxonomy.py:87-98 | the loop collects "Title: value" for the non-blank levels from domain down and joins them with "; "; the text is empty iff the level is unknown |
| TaxonomyModels.Taxonomy.AddFunctionalAnnotation | app/models/taxonomy.py:143-149 | one annotation key is set, on an empty map when there were none (or an empty one); lineage and statistics are unchanged |
| TaxonomyModels.Taxonomy.UpdateAbundanceStats | app/models/taxonomy.py:120-135 | an empty list changes nothing; otherwise total, max, min over the positive values (0 when none), mean and the fraction of positive values are recomputed, and nothing else changes |
| TaxonomyModels.Largest | app/models/taxonomy.py:129 | `max` of a non-empty list is one of its values and bounds all of them |
| TaxonomyModels.Positives | app/models/taxonomy.py:126-132 | the positive values are at most all of them |
| TaxonomyModels.SmallestPositive | app/models/taxonomy.py:126-130 | the minimum positive value, or 0 iff there is none |
| TaxonomyModels.WithDeltas | app/models/taxonomy.py:306-315 | after `calculate_deltas` each delta equals its difference when both operands are present and otherwise keeps its old value; the abundances are unchanged |
| TaxonomyModels.WithDeltasIdempotent | app/models/taxonomy.py:306-315 | computing the deltas twice is computing them once |
| TaxonomyModels.AbundanceAt | app/models/taxonomy.py:317-324 | only `pre`, `during` and `post` are known timepoints; any other gives None |
| TaxonomyModels.DeltaOf | app/models/taxonomy.py:326-333 | only `during_pre`, `post_during` and `post_pre` are known deltas; any other gives None |
| TaxonomyModels.BrackenResult.GetAbundanceAtTimepoint | app/models/taxonomy.py:317-324 | `pre`, `during` and `post` give the stored abundance of that timepoint; any other key gives None |
| TaxonomyModels.BrackenResult.GetDeltaValue | app/models/taxonomy.py:326-333 | `during_pre`, `post_during` and `post_pre` give the stored delta; any other key gives None |
| TaxonomyModels.SetTimepoint | app/models/taxonomy.py:317-324 | storing at a known timepoint is read back there; every other timepoint and every delta is unchanged |
| TaxonomyModels.DeltasCompose | app/models/taxonomy.py:306-315 | with all three abundances present, the during−pre and post−during deltas add up to the post−pre delta |
| TaxonomyModels.BrackenResult.FromDict | app/models/taxonomy.py:351-358 | a result created from a row holds its values with the deltas computed |
| TaxonomyModels.BrackenResult.CalculateDeltas | app/models/taxonomy.py:306-315 | the stored values become the delta computation of the old ones; ids are unchanged |
| BrackenImport.StripSuffix | test_bracken_manual.py:79-80 | `col[:-len(suffix)]` gives back the column when the suffix is re-appended (an empty suffix gives "") |
| BrackenImport.MatchSuffix | test_bracken_manual.py:77-82 | the first configured suffix the column ends with decides the timepoint and the patient id; None when no suffix matches |
| BrackenImport.Target | test_bracken_manual.py:74-85 | a column is used only with a non-empty patient id and timepoint |
| BrackenImport.TargetRebuildsColumn | test_bracken_manual.py:77-85 | a used column is its patient id followed by the suffix of its timepoint, and no earlier suffix matches |
| BrackenImport.Put | test_bracken_manual.py:91-115 | get-or-create the (patient, taxonomy) record, store the value at its timepoint, recompute the deltas; no other record and no other timepoint changes |
| BrackenImport.DataCells | test_bracken_manual.py:66 | one (column, cell) pair per column after the first |
| BrackenImport.ProcessCell | test_bracken_manual.py:66-123 | one cell: missing, "-" or blank cells and unmatched columns are skipped; the value is stored when it parses (the raw variant creates the record before parsing) |
| BrackenImport.ProcessRow | test_bracken_manual.py:63-123 | the column loop applies every data cell left to right; `row_has_data` says whether one was stored |
| BrackenImport.DecomposeTrimmed | test_bracken_manual.py:52-132 | the row loop over the first `limit` rows: blank ids are skipped, each row with data is counted and committed, a failed commit rolls it back; at most `limit` rows are counted |
| BrackenImport.ManualScript | test_bracken_manual.py:40-132 | the manual script decomposes the first 100 rows of an emptied store and counts at most 100 |
| BrackenImport.MainUserScript | test_main_user_bracken.py:32-112 | the main-user script decomposes the first 50 rows of an emptied store and counts at most 50 |
| BrackenImport.RawScript | test_bracken_import.py:72-154 | the raw script decomposes the first 10 rows with untrimmed names and counts each committed row with an id, at most 10 |
| BrackenImport.RowEffectKeepsAgreement | test_bracken_manual.py:114-115 | processing a row keeps every record's deltas in agreement with its abundances |
| BrackenImport.TrimmedDeltasAgree | test_bracken_manual.py:55-132 | after the manual or main-user script every record's deltas agree with its abundances |
| BrackenImport.RawDeltasAgree | test_bracken_import.py:85-154 | after the raw script every record's deltas agree with its abundances |
| BrackenImport.NoDataNoChange | test_bracken_manual.py:88-125 | in the trimming variants a row that stores nothing changes nothing |
| BrackenImport.UnusableCellsSkipped | test_bracken_manual.py:70-71 | a row made only of missing, "-" or blank cells stores nothing and creates no record, in every variant |
| BrackenImport.TrimmedCountsRowsWithData | test_bracken_manual.py:125-132 | `records_added` grows by one exactly for a row with an id that stored a value, whether or not its commit succeeds |
| BrackenImport.RawCountsCommittedRows | test_bracken_import.py:147-154 | in the raw variant `records_added` grows by one for every committed row with an id, even one that stored nothing |
| BrackenImport.RawCreatesBeforeParse | test_bracken_import.py:113-145 | in the raw variant a non-numeric cell still leaves an empty record for its key; the trimming variants create none |
| BrackenImport.MissingIdIsNan | test_bracken_manual.py:59-61 | a row whose first cell is missing is filed under the taxonomy id "nan" |
| Validators.Check | app/utils/validators.py:24-68 | a check contributes no message exactly when its condition does not fail |
| Validators.PatientIdErrors | app/utils/validators.py:24-27 | at most one id message, and none exactly when `patient_id` is present, is a string and is not blank after stripping |
| Validators.AgeErrors | app/utils/validators.py:30-36 | at most one age message; none exactly when age is absent or None, or converts with `int()` to a value in 0..120 |
| Validators.SexErrors | app/utils/validators.py:39-42 | at most one sex message; none exactly when sex is absent or None or one of M, F, Male, Female, male, female, Other |
| Validators.StatusErrors | app/utils/validators.py:45-51 | at most one status message; none exactly when the status is absent or None or converts with `int()` to 0 or 1 |
| Validators.MonthsErrors | app/utils/validators.py:54-60 | at most one months message; none exactly when the months are absent or None or convert with `float()` to a value ≥ 0 |
| Validators.DateErrors | app/utils/validators.py:63-68 | at most one date message; none exactly when the date is absent, None, not a string, or a valid ISO date |
| Validators.ValidatePatientData | app/utils/validators.py:11-70 | the six checks append their messages in source order, and the list is empty exactly when the row satisfies all six field rules |
| Validators.CheckPatientId | app/utils/validators.py:24-27 | the id step appends exactly the id message, if any |
| Validators.CheckAge | app/utils/validators.py:30-36 | the age step appends exactly the age message, if any |
| Validators.CheckSex | app/utils/validators.py:39-42 | the sex step appends exactly the sex message, if any |
| Validators.CheckStatus | app/utils/validators.py:45-51 | the status step appends exactly the status message, if any |
| Validators.CheckMonths | app/utils/validators.py:54-60 | the months step appends exactly the months message, if any |
| Validators.CheckDate | app/utils/validators.py:63-68 | the date step appends exactly the date message, if any |
| Validators.PatientErrorsIffInvalid | app/utils/validators.py:11-70 | `validate_patient_data` returns an empty list exactly when the row satisfies all six field rules |
| Validators.OneIdError | app/utils/validators.py:21-27 | a falsy, non-string or blank id gives exactly one id message, and it is the first message of the list |
| Validators.AbundanceError | app/utils/validators.py:93-99 | one abundance field gives at most one message |
| Validators.AbundanceErrors | app/utils/validators.py:90-99 | the abundance fields give at most one message each |
| Validators.CheckAbundances | app/utils/validators.py:90-99 | the loop over the abundance fields appends exactly the per-field messages, in field order |
| Validators.AbundanceErrorsIff | app/utils/validators.py:90-99 | the abundance fields give no message exactly when every given field converts to a non-negative number |
| Validators.FractionError | app/utils/validators.py:102-117 | at most one message for prevalence or confidence, and none exactly when the value is absent, None or a number in [0, 1] |
| Validators.FractionErrors | app/utils/validators.py:101-117 | no message exactly when both prevalence and `classification_confidence` are absent, None or in [0, 1] |
| Validators.ValidateTaxonomyData | app/utils/validators.py:73-119 | the messages are the id message when `taxonomy_id` is falsy, then the abundance messages, then the fraction messages |
| Validators.TaxonomyErrorsIffInvalid | app/utils/validators.py:73-119 | `validate_taxonomy_data` returns an empty list exactly when the id is truthy, the four abundances are non-negative and both fractions lie in [0, 1] |
| Validators.CoxErrors | app/utils/validators.py:135-152 | one message for an alpha that is given but not a number in (0, 1), one for a penalizer that is given but not a non-negative number; none exactly when both are absent or valid |
| Validators.SurvivalConfigErrors | app/utils/validators.py:154-161 | survival analysis gives one message for each of `time_column` and `event_column` that is missing or falsy |
| Validators.CorrelationErrors | app/utils/validators.py:163-168 | correlation gives no message exactly when `method` is absent or one of pearson, spearman, kendall |
| Validators.ValidateAnalysisConfig | app/utils/validators.py:122-170 | empty if valid: for Cox regression exactly when alpha and penalizer are valid, for survival exactly when both columns are given, for correlation exactly when the method is absent or known; other types give no message, and no type more than two |
| Validators.Extension | app/utils/validators.py:198 | the extension is the suffix that follows a dot and holds no dot, that is, the text after the last dot |
| Validators.ValidateFileUpload | app/utils/validators.py:173-203 | no file gives "No file provided", an empty name gives "No file selected", at most one message in all, and a named file is accepted exactly when it has a dot and its lower-cased last extension is allowed |
| Validators.UpperCaseExtensionAccepted | app/utils/validators.py:198-199 | `Report.v2.CSV` is accepted for `csv`: only the last extension counts and it is compared in lower case |
| Validators.Failed | app/utils/validators.py:239-252 | the failed rules give at most one message each |
| Validators.FailedMatchesCount | app/utils/validators.py:239-252 | one message per failed rule, and none exactly when every rule holds |
| Validators.PasswordErrors | app/utils/validators.py:223-254 | a missing or empty password gives exactly "Password is required"; otherwise there is one message per failed rule, and none exactly when the password has length ≥ 8, an upper-case letter, a lower-case letter, a digit and a special character |
| Validators.ValidatePassword | app/utils/validators.py:223-254 | the early return and the five appends give exactly those messages, in rule order |
| Validators.RemoveDangerous | app/utils/validators.py:271 | the result keeps only characters of the input and holds none of `<` `>` `"` `'` |
| Validators.RemoveDangerousClean | app/utils/validators.py:271 | a text without those characters is unchanged |
| Validators.SanitizeInput | app/utils/validators.py:257-276 | non-text values pass unchanged; text comes out with no dangerous character and no surrounding whitespace |
| Validators.SanitizeIdempotent | app/utils/validators.py:257-276 | sanitising twice is sanitising once |
| PatientModel.RequestedGroups | app/models/patient.py:280-282 | no request or an empty one selects the four default groups; any other request is used as given |
| PatientModel.RangeError | app/models/patient.py:190-208 | no range error exactly when every given value is in range: age in [0, 120], creatinine in [0.1, 20], albumin in [1, 6], beta-2 microglobulin in [0.5, 50]; None values are not checked |
| PatientModel.AgeGroup | app/models/patient.py:215-221 | the age group is one of under 65, 65 to 75, over 75 |
| PatientModel.BmiGroup | app/models/patient.py:224-232 | the BMI group is one of underweight, normal weight, overweight, obese |
| PatientModel.AnyTrue | app/models/patient.py:246-248 | `any(...)` over nullable markers holds exactly when some marker is truthy |
| PatientModel.Get | app/models/patient.py:34-116 | a column reads as present exactly when it is not None, with its own value |
| PatientModel.Real | app/models/patient.py:34-116 | a float column reads as a number exactly when it holds one |
| PatientModel.Text | app/models/patient.py:34-116 | a string column reads as text exactly when it holds one |
| PatientModel.FillBmi | app/models/patient.py:197-198 | when height and weight are set and non-zero and bmi is not, bmi becomes weight / height²; otherwise nothing changes; no column other than bmi ever changes |
| PatientModel.ValidationError | app/models/patient.py:192-194 | an out-of-range age gives exactly the age error |
| PatientModel.FillKeepsLabValues | app/models/patient.py:196-208 | filling in bmi does not change which range error, if any, the row gives |
| PatientModel.Read | app/models/patient.py:284-344 | reading a list of columns gives one entry per listed name, holding that column's value or None |
| PatientModel.Attr | app/models/patient.py:113-116 | an attribute read fails exactly for a name the model does not declare |
| PatientModel.ReadAttrs | app/models/patient.py:273-277 | reading the survival attributes fails exactly when one of them is undeclared |
| PatientModel.Update | app/models/patient.py:284-344 | a group's `data.update` adds that group's columns exactly when the group is requested, and keeps every other entry |
| PatientModel.Patient.constructor | app/models/patient.py:185-187 | a new patient holds the given id and columns |
| PatientModel.Patient.ValidateData | app/models/patient.py:190-208 | the error is the first failed range check in source order; an age error leaves the row untouched, and otherwise bmi is filled in even when a laboratory check then fails |
| PatientModel.Patient.DemographicsGroup | app/models/patient.py:210-234 | one age group when age is set, first, and one BMI group when bmi is set, last; nothing else |
| PatientModel.Patient.Markers | app/models/patient.py:238-244 | the marker list holds each named marker's value, in order |
| PatientModel.Patient.FishRiskGroup | app/models/patient.py:236-251 | high risk exactly when a high-risk marker is true; intermediate risk exactly when none is but an intermediate marker is; otherwise standard risk |
| PatientModel.Patient.DiseaseStageGroup | app/models/patient.py:253-260 | a non-empty R-ISS gives `riss_` + R-ISS; otherwise a non-empty ISS gives `iss_` + ISS; `unknown_stage` exactly when neither is set |
| PatientModel.Patient.AnalysisVariables | app/models/patient.py:268-347 | the exported variables are the collected dictionary without its None values, reading the undeclared `duration_survival` as absent |
| PatientModel.Patient.CollectVariables | app/models/patient.py:270-344 | the dictionary holds patient_id and the survival columns, then one update per requested group in source order |
| PatientModel.AgeGroupMonotone | app/models/patient.py:215-221 | an older patient never falls in a younger age group |
| PatientModel.BmiGroupMonotone | app/models/patient.py:224-232 | a higher BMI never falls in a lower BMI group |
| PatientModel.CompleteSurvivalIff | app/models/patient.py:262-266 | complete survival data holds exactly when duration_pfs is a positive number and pfs_status is present |
| PatientModel.Patient.HasCompleteSurvivalData | app/models/patient.py:262-266 | true exactly when the stored duration_pfs is a positive number and pfs_status is stored |
| PatientModel.Patient.AnalysisVariablesAsWritten | app/models/patient.py:268-347 | the method raises exactly when one of the survival attributes it reads is not a declared column; otherwise it returns the requested variables |
| PatientModel.VariablesSelectOnlyRequested | app/models/patient.py:268-347 | a column is exported exactly when it is patient_id, or it is not None and is a survival column or in a requested group; each exported value is the column's own and none is None |
| PatientModel.DefaultExportsAllGroups | app/models/patient.py:280-282 | with no request, every non-None column of the four groups is exported |
| PatientModel.VariableGroupsNoPatientId | app/models/patient.py:272-344 | no group list holds patient_id, so it is never overwritten by a group |
| PatientModel.DurationSurvivalUndeclared | app/models/patient.py:113-116 | `duration_survival` is not a declared column: its declaration is inside a comment |
| PatientModel.AnalysisVariablesAlwaysRaises | app/models/patient.py:276 | as written, `get_analysis_variables` raises for every patient and every request |
| AnalysisModels.DefaultConfiguration | app/models/analysis.py:155-185 | a type without a defaults entry gets {}; Cox regression, Kaplan-Meier, RMST, Wilcoxon and correlation all default alpha to 0.05 |
| AnalysisModels.WithDefaults | app/models/analysis.py:145-153 | the merged configuration holds exactly the user's keys and the default keys; every user value is kept and only missing keys take the default |
| AnalysisModels.WithDefaultsIdempotent | app/models/analysis.py:149-151 | adding the defaults a second time changes nothing |
| AnalysisModels.Analysis.constructor | app/models/analysis.py:99-110 | a new analysis is pending, with only its type and configuration set |
| AnalysisModels.Analysis.StartExecution | app/models/analysis.py:115-119 | the status becomes running from any status and the update time is recorded; nothing else changes |
| AnalysisModels.Analysis.CompleteExecution | app/models/analysis.py:121-133 | the status becomes completed from any status with the completion time; results, visualization data and execution time are overwritten only by truthy arguments; nothing else changes |
| AnalysisModels.Analysis.FailExecution | app/models/analysis.py:135-141 | the status becomes failed from any status; the message is always stored and the warnings only when truthy; nothing else changes |
| AnalysisModels.Analysis.GetConfiguration | app/models/analysis.py:143-153 | the loop returns the stored configuration (or {}) with every missing default added; a non-empty stored configuration is the same dict and gains the defaults too, while a None or empty one stays as it was |
| AnalysisModels.Share | app/models/analysis.py:415-416 | after sharing, the list holds the user and otherwise exactly the ids it held before |
| AnalysisModels.RemoveFirst | app/models/analysis.py:421-422 | `list.remove` drops one element: one entry fewer, and every other id stays |
| AnalysisModels.ShareIdempotent | app/models/analysis.py:410-417 | sharing twice with the same user is sharing once |
| AnalysisModels.ShareKeepsNoDuplicates | app/models/analysis.py:415-416 | sharing never introduces a duplicate id |
| AnalysisModels.RemoveFirstRemovesAll | app/models/analysis.py:421-422 | on a list without duplicates, unsharing leaves no trace of the id and no duplicate |
| AnalysisModels.UnshareUndoesShare | app/models/analysis.py:410-423 | unsharing an id that sharing just appended restores the list |
| AnalysisModels.RemoveAppended | app/models/analysis.py:421-422 | removing an id appended to a list that lacked it gives the list back |
| AnalysisModels.SavedView.constructor | app/models/analysis.py:378-386 | a new view is private, shared with nobody and never accessed |
| AnalysisModels.SavedView.UpdateAccess | app/models/analysis.py:404-408 | the access count grows by exactly one and the access time is recorded; nothing else changes |
| AnalysisModels.SavedView.ShareWithUser | app/models/analysis.py:410-417 | a falsy list becomes [] and the id is appended unless already present; nothing else changes |
| AnalysisModels.SavedView.UnshareWithUser | app/models/analysis.py:419-423 | the first occurrence of the id is removed when present, and otherwise nothing changes |
| AnalysisModels.CanAccessIff | app/models/analysis.py:425-431 | a user can access the view exactly when they own it, it is public, or they are on the sharing list |
| AnalysisModels.SavedView.CanAccess | app/models/analysis.py:425-431 | access for the owner, for anyone on a public view, and for a user on the sharing list; for nobody else |
| AnalysisModels.SharedUserCanAccess | app/models/analysis.py:410-431 | after sharing with a user, that user can access the view |
| AnalysisModels.UnsharedUserLosesAccess | app/models/analysis.py:419-431 | after unsharing on a list without duplicates, a user who neither owns the view nor sees it publicly loses access |
| UserModel.Step | app/models/user.py:99-111 | a success resets the counter to 0, clears the lock and records the login; a failure adds exactly one to the counter and, once the counter is at least 5, locks until now + 30 minutes; every attempt records the activity time |
| UserModel.TrailingFailuresCount | app/models/user.py:105-106 | after m failures in a row, the counter is at least m |
| UserModel.NeverNegative | app/models/user.py:101-106 | the failure counter never becomes negative |
| UserModel.FiveFailuresLock | app/models/user.py:105-118 | five failures in a row lock the account until 30 minutes after the last one, so it is locked at that moment |
| UserModel.FewFailuresNoLock | app/models/user.py:105-109 | a new account is never locked by fewer than five attempts |
| UserModel.SuccessUnlocks | app/models/user.py:101-103 | after a successful attempt the account is unlocked at every time |
| UserModel.WithoutName | app/models/user.py:176 | the kept views are exactly those whose name differs |
| UserModel.WithoutNameAppend | app/models/user.py:176 | the filter works piecewise, so the kept views stay in their order |
| UserModel.WithoutNameIdempotent | app/models/user.py:173-177 | deleting a view twice is deleting it once |
| UserModel.SafeEmail | app/models/user.py:143 | the folder name has the email's length, holds no '@' and no '.', and keeps every other character in place |
| UserModel.SafeEmailIdempotent | app/models/user.py:143 | a folder name is already safe |
| UserModel.UsernameBase | app/models/user.py:286 | the base is the email's prefix before the first '@' (the whole email when there is none) |
| UserModel.CandidatesDistinct | app/models/user.py:288-291 | different counters give different usernames |
| UserModel.User.constructor | app/models/user.py:275-283 | a new account holds the email and role, no username, no permissions, no failures, no lock and no saved views |
| UserModel.User.RecordLoginAttempt | app/models/user.py:99-112 | the login fields change exactly as one step of the lockout rule and no other field changes |
| UserModel.User.DeleteSavedView | app/models/user.py:173-177 | every view with that name is removed and the rest stay in order; the login state, email, role, username and permissions are unchanged |
| UserModel.PermissionCases | app/models/user.py:120-129 | an admin has every permission, and a non-admin without permissions text has none |
| UserModel.User.IsAccountLocked | app/models/user.py:114-118 | no lock means unlocked; with a lock, locked exactly while now is before its end |
| UserModel.User.HasPermission | app/models/user.py:120-129 | an admin has every permission; a non-admin without permissions text has none; otherwise the permission must be in the decoded list |
| UserModel.ChooseUsername | app/models/user.py:285-292 | the username is not taken, and it is the first of base, base1, base2, ... that is not taken |
| UserModel.CreateFromGoogle | app/models/user.py:273-296 | a new Google user is a viewer with its email, the first candidate username nobody holds, no permissions, no saved views and a fresh login state |
| DataExport.Fields | app/utils/data_export.py:43 | the header is the requested field list when it is non-empty, else the defaults |
| DataExport.PatientCell | app/utils/data_export.py:56-60 | a datetime exports as its ISO text, None as '', and any other value unchanged |
| DataExport.TaxonomyCell | app/utils/data_export.py:119-120 | None exports as '' and any other value unchanged, so no taxonomy cell is None |
| DataExport.OrEmpty | app/utils/data_export.py:217-222 | `value or ''` keeps a truthy value and turns every falsy one, 0 included, into '' |
| DataExport.PatientRow | app/utils/data_export.py:52-62 | one cell per header field, in order, each the patient cell of that attribute |
| DataExport.ExportPatients | app/utils/data_export.py:16-76 | no patients give the "No patients found" placeholder named `patients_empty.csv`; otherwise the header is the chosen fields and there is one row per patient, each one cell per header field |
| DataExport.TaxonomyRow | app/utils/data_export.py:112-122 | one cell per header field, in order, each the taxonomy cell of that attribute |
| DataExport.ExportTaxonomies | app/utils/data_export.py:80-135 | no taxonomies give the "No taxonomies found" placeholder named `taxonomy_empty.csv`; otherwise the header is the chosen fields and there is one row per taxonomy, each one cell per header field |
| DataExport.BrackenRow | app/utils/data_export.py:214-223 | eight cells: the two ids as stored, then the three abundances and the three deltas each through `or ''` |
| DataExport.ExportBracken | app/utils/data_export.py:186-235 | no results give the "No bracken results found" placeholder named `bracken_empty.csv`; otherwise the fixed eight-field header and one row per result, in order |
| DataExport.ZeroAbundanceExportsEmpty | app/utils/data_export.py:217 | a zero abundance exports as an empty cell, like a missing one |
| DataExport.KeepNameChars | app/utils/data_export.py:174-175 | the filter keeps only letters, digits, space, '-' and '_', keeps a text made only of those unchanged, and on one character keeps it exactly when it is a name character |
| DataExport.KeepNameCharsAppend | app/utils/data_export.py:174-175 | the filter distributes over concatenation, so it keeps each name character of the input, in order |
| DataExport.SafeNameDropsOther | app/utils/data_export.py:174-175 | a character that is not a name character leaves no trace in the safe name |
| DataExport.SafeNameKeepsNameChar | app/utils/data_export.py:174-175 | a name character survives the filter between the kept characters of its two sides |
| DataExport.SafeName | app/utils/data_export.py:174-175 | the safe name holds only letters, digits, space, '-' and '_', with no surrounding whitespace; a name already of that form is its own safe name |
| DataExport.SafeNameIdempotent | app/utils/data_export.py:174-175 | filtering a safe name again changes nothing |
| DataExport.MethodologyText | app/utils/data_export.py:267-280 | no analysis type gives "Methodology information not available."; a type without a text gives "Analysis methodology details not available." |
| DataExport.StatisticalSummary | app/utils/data_export.py:292-312 | the summary has exactly the five fields; all but p_value and sample_size are 'N/A', and those two take the result's value when the results are truthy and hold that key, else 'N/A' |
| DataExport.Title | app/utils/data_export.py:324 | `title()` keeps the length and every non-letter, upper-cases a letter that starts a word and lower-cases every other letter |
| DataExport.Spaced | app/utils/data_export.py:324-326 | `replace('_', ' ')` keeps the length, turns every '_' into a space and changes no other character |
| DataExport.PrepareFigureData | app/utils/data_export.py:315-330 | no visualization data gives no figure; otherwise there is exactly one figure per entry, in order, built from that entry |
| DataExport.FigureTitleShape | app/utils/data_export.py:324 | a figure title is the analysis name, " - ", then the title-cased kind, of the kind's length |
| CsvFix.FieldCounts | debug_patient_import.py:38 | one field count per row, in row order |
| CsvFix.DistinctCounts | debug_patient_import.py:38-39 | a count is in the set exactly when some row has that many fields |
| CsvFix.MaxFields | debug_patient_import.py:76 | the maximum is at least every row's field count and is reached by some row |
| CsvFix.Blanks | debug_patient_import.py:84 | `[''] * n` is n empty fields |
| CsvFix.CsvStore.constructor | debug_patient_import.py:21-31 | the store holds the given patient file and backup file |
| CsvFix.CsvStore.AnalyzeCsvStructure | debug_patient_import.py:17-50 | a missing file gives None; an empty file fails on its header row; otherwise the rows come back with exactly their distinct field counts |
| CsvFix.CsvStore.FixCsvStructure | debug_patient_import.py:53-97 | an empty file returns False and nothing changes; otherwise the backup holds the original rows and the file keeps its row count and order, every row padded with '' to the maximum field count and rows already at the maximum unchanged |
| CsvFix.CsvStore.RepairIfNeeded | debug_patient_import.py:172-181 | the repair runs exactly when the rows have more than one distinct field count; afterwards the backup holds the original rows and every row has the maximum field count |
| CsvFix.PaddingLeavesOneCount | debug_patient_import.py:76-89 | rows padded to the maximum all share that one field count, so the file is no longer ragged |
| CsvFix.UniformNotRagged | debug_patient_import.py:79-89 | a file whose rows agree on their count is not ragged, and padding it changes no row |
| LineSplit.CleanAll | app/api/uploads.py:336-343 | one cleaned field per part, in order |
| LineSplit.CommasWithoutQuotes | app/api/uploads.py:325-331 | without single quotes, every comma of a prefix counts as a split point |
| DelimiterSniffer.CountLinesZero | app/api/uploads.py:249-253 | a tally is zero exactly when no sampled line holds that character |
| ColumnProfile.PositionsBounded | app/api/uploads.py:721-723 | every recorded position is a valid column index |

## Left out

- HTTP, Flask-RESTX, CSRF and login plumbing, responses and status codes are not modelled: only the decisions inside the upload endpoints are.
- Logging (`log_upload_event`, `log_function`) and the debug script's printed diagnostics are left out: they change no state the model tracks.
- Database sessions are not modelled: commits, queries and the per-user delete of taxonomy rows are reduced to the table contents they produce. A commit failure is an input saying which row fails.
- The pandas and openpyxl parsers (quoting modes, encodings, engines) are outcomes given as input. `config.py` is not part of this model: its vocabularies and suffix table are parameters.
- File-system effects are left out: saving the cleaned frame, `os.makedirs` in `get_user_folder`, writing and deleting saved-view files, and the text encoding of the rewritten patient CSV. The CSV writer and reader are taken to round-trip rows exactly.
- The exception texts that the import and analyze endpoints put into their 500 answers are not modelled.
- `validate_email` and `validate_numeric_range` are not modelled: they are not among the checks the import and model code relies on.
- `is_rare_taxon`, `is_abundant_taxon`, `Patient.to_dict`, `Taxonomy.to_dict` and the `bulk_create_from_dataframe` loops are not modelled: they are threshold tests on floats or serialisation.
- Floating point is exact `real` arithmetic: the BMI division, the abundance statistics and the deltas carry no rounding.
- `str.lower`, `str.isalnum` and `str.title` are modelled on ASCII letters and digits only; other Unicode letters are treated as non-letters.
- Validators.HasDigit: the password rule `\d` matches every Unicode decimal digit, while the model accepts only `0`-`9`. The other four rules are explicit character classes and are modelled exactly.
- UserModel.User.HasPermission: `json.loads` is a parameter that returns the decoded permissions as a list of names. Malformed text, on which `json.loads` raises, is not modelled. Neither is a decoded object or string, where `in` would test the keys or a substring.
- Columns are typed by their declared SQL kind (float, boolean or string); a value of another kind stored in a column reads as absent.
- `created_at` and `updated_at` defaults and the `onupdate` refresh are left out, since SQLAlchemy applies them at insert and flush, outside the methods modelled.
- The timestamped export file names, the `Content-Disposition` header and the `str()` rendering of cells by the CSV writer are left out; exports are modelled as header and rows of values.
- `create_publication_report` and `export_analysis_results_to_json` are modelled only through their pieces: `safe_name`, the methodology text, the statistical summary and the figures.
- DataExport.StatisticalSummary: results that are truthy but not a JSON object are treated as holding neither key, whereas Python's `in` on a list or a string would test membership there.
- DataExport.MethodologyText: the five documented texts are constants; the contract states the two fallbacks but does not prove that the documented texts differ from them.
- CsvFix.CsvStore.FixCsvStructure: it requires the patient file to exist, because the script's `open` raises otherwise and that path is not modelled.
- CsvFix.CsvStore.AnalyzeCsvStructure: an empty file gives `EmptyFile`, the IndexError that reading `rows[0]` raises; the exception itself is not modelled.
- PatientModel.Patient.constructor: it stores the columns without calling `validate_data`; `ValidateData` models that call separately.
- The import pipeline models the code as written: labels are dropped by name, skip mode is off by one and taxonomy CSVs are reported twice. The corrected definitions under Findings stand beside it.

## Findings

| source | as written | input that shows it | evidently intended | confidence | as-written member | corrected member |
|---|---|---|---|---|---|---|
| app/api/uploads.py:1051-1061 | `df.drop(columns=[col])` drops by label, so every column of a same-named group goes, the kept one included | two columns named `a`, keep index 0: no `a` column is left | keep the chosen occurrence and drop the others by position | high, not executed | ColumnOps.DuplicateGroupVanishes | ColumnOps.KeepOccurrenceKeepsChosen |
| app/api/uploads.py:1120-1140 | skip mode applies `iloc[1:]` to a frame whose header already took file line 1, then promotes the next row, so file line 3 becomes the header | file lines `a`, `b`, `c`: the header becomes `c` | promote file line 2, as the analyzer's skip framing and the Excel import do | high, not executed | UploadImport.CsvSkipCounterexample | UploadImport.IntendedSkipIsAnalyzers |
| app/api/uploads.py:1256-1266 | after a successful taxonomy import the unconditional `imported.append` adds a second entry for sheet `CSV` | any confirmed CSV with a taxonomy identifier column while the database is available | one entry per file, flagged as imported to the database | high, not executed | UploadImport.TaxonomyCsvReportedTwice | UploadImport.IntendedCsvReportedOnce |
| app/models/patient.py:276 | the `duration_survival` column declaration sits inside a comment at line 114, so `get_analysis_variables` reads an attribute that does not exist and raises | any patient and any request | the field is absent, so the variables are the requested non-None columns | high, not executed | PatientModel.AnalysisVariablesAlwaysRaises | PatientModel.VariablesSelectOnlyRequested |
