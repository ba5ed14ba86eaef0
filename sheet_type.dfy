/** `_detect_sheet_type`: classification of a sheet from its column names alone.
    The vocabularies and the suffix table live in configuration that is not part
    of this model, so they are parameters; `difflib.get_close_matches` with its
    0.8 cutoff is the opaque predicate `close`. */
module SheetType {
  import opened Text

  datatype Kind = Patients | Taxonomy | Bracken | Unknown

  /** A domain's strong identifier names and its full column vocabulary. */
  datatype Vocabulary = Vocabulary(identifiers: set<string>, names: seq<string>)

  function LowerAll(names: seq<string>): (r: seq<string>)
    ensures |r| == |names|
    ensures forall k :: 0 <= k < |names| ==> r[k] == Lower(names[k])
  {
    seq(|names|, k requires 0 <= k < |names| => Lower(names[k]))
  }

  /** A column maps when its lower-cased name is a lower-cased vocabulary name,
      or when the fuzzy matcher finds a close vocabulary name. */
  predicate ColumnMaps(col: string, names: seq<string>, close: (string, seq<string>) -> bool) {
    Lower(col) in LowerAll(names) || close(col, names)
  }

  /** The `mapped` counter over `cols`. */
  function MappedCount(cols: seq<string>, names: seq<string>, close: (string, seq<string>) -> bool): (n: nat)
    ensures n <= |cols|
  {
    if cols == [] then 0
    else MappedCount(cols[..|cols| - 1], names, close)
         + (if ColumnMaps(cols[|cols| - 1], names, close) then 1 else 0)
  }

  /** Some lower-cased column name is a strong identifier of the domain. */
  predicate IdentifierHit(cols: seq<string>, v: Vocabulary) {
    exists k :: 0 <= k < |cols| && Lower(cols[k]) in v.identifiers
  }

  function Threshold(n: nat): nat {
    if n / 2 > 2 then n / 2 else 2
  }

  predicate DomainMatch(cols: seq<string>, v: Vocabulary, close: (string, seq<string>) -> bool) {
    IdentifierHit(cols, v) && MappedCount(cols, v.names, close) >= Threshold(|cols|)
  }

  predicate HasSuffixColumn(cols: seq<string>, suffixes: seq<string>) {
    exists k, m :: 0 <= k < |cols| && 0 <= m < |suffixes| && EndsWith(cols[k], suffixes[m])
  }

  /** The classification: patients before taxonomy, then the suffix test, then unknown. */
  function Classify(cols: seq<string>, patients: Vocabulary, taxonomy: Vocabulary,
                    suffixes: seq<string>, close: (string, seq<string>) -> bool): Kind
  {
    if DomainMatch(cols, patients, close) then Patients
    else if DomainMatch(cols, taxonomy, close) then Taxonomy
    else if HasSuffixColumn(cols, suffixes) then Bracken
    else Unknown
  }

  /** The `mapped` counting loop for one domain. */
  method CountMapped(cols: seq<string>, names: seq<string>, close: (string, seq<string>) -> bool)
    returns (mapped: nat)
    ensures mapped == MappedCount(cols, names, close)
  {
    var lowered := LowerAll(names);
    mapped := 0;
    var i := 0;
    while i < |cols|
      invariant 0 <= i <= |cols|
      invariant mapped == MappedCount(cols[..i], names, close)
    {
      assert cols[..i + 1][..i] == cols[..i];
      if Lower(cols[i]) in lowered {
        mapped := mapped + 1;
      } else if close(cols[i], names) {
        mapped := mapped + 1;
      }
      i := i + 1;
    }
    assert cols[..i] == cols;
  }

  method DetectSheetType(cols: seq<string>, patients: Vocabulary, taxonomy: Vocabulary,
                         suffixes: seq<string>, close: (string, seq<string>) -> bool)
    returns (kind: Kind)
    ensures kind == Classify(cols, patients, taxonomy, suffixes, close)
  {
    if IdentifierHit(cols, patients) {
      var mapped := CountMapped(cols, patients.names, close);
      if mapped >= Threshold(|cols|) {
        return Patients;
      }
    }
    if IdentifierHit(cols, taxonomy) {
      var mapped := CountMapped(cols, taxonomy.names, close);
      if mapped >= Threshold(|cols|) {
        return Taxonomy;
      }
    }
    if HasSuffixColumn(cols, suffixes) {
      return Bracken;
    }
    return Unknown;
  }

  /** Fewer than two columns never reach the mapped threshold of 2. */
  lemma FewColumnsNoDomain(cols: seq<string>, patients: Vocabulary, taxonomy: Vocabulary,
                           suffixes: seq<string>, close: (string, seq<string>) -> bool)
    requires |cols| < 2
    ensures Classify(cols, patients, taxonomy, suffixes, close) in {Bracken, Unknown}
  {
  }

  /** An empty column list is unknown. */
  lemma EmptyIsUnknown(patients: Vocabulary, taxonomy: Vocabulary,
                       suffixes: seq<string>, close: (string, seq<string>) -> bool)
    ensures Classify([], patients, taxonomy, suffixes, close) == Unknown
  {
  }

  /** When every column maps, the count is the number of columns. */
  lemma {:induction false} AllMapped(cols: seq<string>, names: seq<string>, close: (string, seq<string>) -> bool)
    requires forall k :: 0 <= k < |cols| ==> ColumnMaps(cols[k], names, close)
    ensures MappedCount(cols, names, close) == |cols|
  {
    if cols != [] {
      AllMapped(cols[..|cols| - 1], names, close);
    }
  }

  /** At least two columns, all in the patient vocabulary, one of them an identifier: a patient sheet. */
  lemma FullVocabularyIsPatients(cols: seq<string>, patients: Vocabulary, taxonomy: Vocabulary,
                                 suffixes: seq<string>, close: (string, seq<string>) -> bool)
    requires |cols| >= 2 && IdentifierHit(cols, patients)
    requires forall k :: 0 <= k < |cols| ==> Lower(cols[k]) in LowerAll(patients.names)
    ensures Classify(cols, patients, taxonomy, suffixes, close) == Patients
  {
    AllMapped(cols, patients.names, close);
  }

  /** A bracken verdict always rests on a column ending with a configured suffix,
      and such a column gives bracken whenever neither domain matches. */
  lemma BrackenIffSuffix(cols: seq<string>, patients: Vocabulary, taxonomy: Vocabulary,
                         suffixes: seq<string>, close: (string, seq<string>) -> bool)
    ensures Classify(cols, patients, taxonomy, suffixes, close) == Bracken ==> HasSuffixColumn(cols, suffixes)
    ensures !DomainMatch(cols, patients, close) && !DomainMatch(cols, taxonomy, close) ==>
              (Classify(cols, patients, taxonomy, suffixes, close) == Bracken <==> HasSuffixColumn(cols, suffixes))
  {
  }

  /** Subject columns carrying the `.P`, `.E` and `.2.4M` suffixes make an abundance sheet
      when no strong identifier is present. */
  lemma SuffixColumnsAreBracken(patients: Vocabulary, taxonomy: Vocabulary, close: (string, seq<string>) -> bool)
    requires !IdentifierHit(["P001.P", "P001.E", "P002.P"], patients)
    requires !IdentifierHit(["P001.P", "P001.E", "P002.P"], taxonomy)
    ensures Classify(["P001.P", "P001.E", "P002.P"], patients, taxonomy, [".P", ".E", ".2.4M"], close) == Bracken
  {
    var cols := ["P001.P", "P001.E", "P002.P"];
    assert EndsWith(cols[0], [".P", ".E", ".2.4M"][0]);
  }
}
