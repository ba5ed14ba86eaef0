/** Export helpers: the rows of the patient, taxonomy and Bracken CSV exports,
    the file-name filter for analysis exports, and the pieces of the
    publication report (methodology text, statistical summary, figures). The
    CSV writer's quoting, the response object and the timestamped file names
    are not modelled. */
module DataExport {
  import opened Wrappers
  import opened Text
  import opened AnalysisModels

  /** An attribute value of an exported record. */
  datatype Value = Null | Str(s: string) | Num(x: real) | Flag(b: bool) | DateTime(iso: string)

  /** An exported object's attributes by name; a missing name is a missing attribute. */
  type Record = map<string, Value>

  /** The outcome of a CSV export: the placeholder response for an empty
      input, or the header and the data rows. */
  datatype CsvExport = Placeholder(body: string, fileName: string) | Table(header: seq<string>, rows: seq<seq<Value>>)

  const PatientDefaultFields: seq<string> :=
    ["patient_id", "age", "sex", "race", "diagnosis_date", "stage", "survival_months", "survival_status", "created_at"]
  const TaxonomyDefaultFields: seq<string> :=
    ["taxonomy_id", "domain", "phylum", "class_name", "order", "family", "genus", "species",
     "total_abundance", "mean_abundance", "prevalence"]
  const BrackenFields: seq<string> :=
    ["patient_id", "taxonomy_id", "abundance_pre", "abundance_during", "abundance_post",
     "delta_during_pre", "delta_post_during", "delta_post_pre"]

  /** `include_fields if include_fields else defaults`. */
  function Fields(includeFields: Option<seq<string>>, defaults: seq<string>): (r: seq<string>)
    ensures includeFields.Some? && includeFields.value != [] ==> r == includeFields.value
    ensures includeFields.None? || includeFields.value == [] ==> r == defaults
  {
    if includeFields.Some? && includeFields.value != [] then includeFields.value else defaults
  }

  /** `getattr(obj, field, None)`. */
  function Attr(record: Record, field: string): Value {
    if field in record then record[field] else Null
  }

  /** A patient cell: a datetime becomes its ISO text, None becomes ''. */
  function PatientCell(v: Value): (r: Value)
    ensures v.DateTime? ==> r == Str(v.iso)
    ensures v.Null? ==> r == Str("")
    ensures !v.DateTime? && !v.Null? ==> r == v
  {
    match v
    case DateTime(iso) => Str(iso)
    case Null => Str("")
    case _ => v
  }

  /** A taxonomy cell: None becomes '', everything else is kept. */
  function TaxonomyCell(v: Value): (r: Value)
    ensures r != Null
    ensures v != Null ==> r == v
  {
    if v.Null? then Str("") else v
  }

  /** Python truthiness of an attribute value. */
  predicate ValueTruthy(v: Value) {
    match v
    case Null => false
    case Str(s) => s != ""
    case Num(x) => x != 0.0
    case Flag(b) => b
    case DateTime(_) => true
  }

  /** `value or ''`: every falsy value, 0.0 included, exports as ''. */
  function OrEmpty(v: Value): (r: Value)
    ensures ValueTruthy(v) ==> r == v
    ensures !ValueTruthy(v) ==> r == Str("")
  {
    if ValueTruthy(v) then v else Str("")
  }

  /** One patient row: one cell per field, in the field order. */
  method PatientRow(patient: Record, fields: seq<string>) returns (row: seq<Value>)
    ensures |row| == |fields|
    ensures forall j :: 0 <= j < |fields| ==> row[j] == PatientCell(Attr(patient, fields[j]))
  {
    row := [];
    var j := 0;
    while j < |fields|
      invariant 0 <= j <= |fields| && |row| == j
      invariant forall k :: 0 <= k < j ==> row[k] == PatientCell(Attr(patient, fields[k]))
    {
      var value := Attr(patient, fields[j]);
      if value.DateTime? {
        value := Str(value.iso);
      } else if value.Null? {
        value := Str("");
      }
      row := row + [value];
      j := j + 1;
    }
  }

  /** `export_patients_to_csv`: a placeholder for no patients, else the header
      and one row per patient. */
  method ExportPatients(patients: seq<Record>, includeFields: Option<seq<string>>) returns (r: CsvExport)
    ensures patients == [] ==> r == Placeholder("No patients found", "patients_empty.csv")
    ensures patients != [] ==> r.Table? && r.header == Fields(includeFields, PatientDefaultFields)
    ensures patients != [] ==> |r.rows| == |patients|
    ensures patients != [] ==> forall i :: 0 <= i < |patients| ==> |r.rows[i]| == |r.header|
    ensures patients != [] ==> forall i, j :: 0 <= i < |patients| && 0 <= j < |r.header| ==>
              r.rows[i][j] == PatientCell(Attr(patients[i], r.header[j]))
  {
    if patients == [] {
      return Placeholder("No patients found", "patients_empty.csv");
    }
    var fields := Fields(includeFields, PatientDefaultFields);
    var rows: seq<seq<Value>> := [];
    var i := 0;
    while i < |patients|
      invariant 0 <= i <= |patients| && |rows| == i
      invariant forall k :: 0 <= k < i ==> |rows[k]| == |fields|
      invariant forall k, j :: 0 <= k < i && 0 <= j < |fields| ==> rows[k][j] == PatientCell(Attr(patients[k], fields[j]))
    {
      var row := PatientRow(patients[i], fields);
      rows := rows + [row];
      i := i + 1;
    }
    return Table(fields, rows);
  }

  /** One taxonomy row: one cell per field, in the field order. */
  method TaxonomyRow(taxonomy: Record, fields: seq<string>) returns (row: seq<Value>)
    ensures |row| == |fields|
    ensures forall j :: 0 <= j < |fields| ==> row[j] == TaxonomyCell(Attr(taxonomy, fields[j]))
  {
    row := [];
    var j := 0;
    while j < |fields|
      invariant 0 <= j <= |fields| && |row| == j
      invariant forall k :: 0 <= k < j ==> row[k] == TaxonomyCell(Attr(taxonomy, fields[k]))
    {
      var value := Attr(taxonomy, fields[j]);
      if value.Null? {
        value := Str("");
      }
      row := row + [value];
      j := j + 1;
    }
  }

  /** `export_taxonomy_to_csv`: a placeholder for no taxonomies, else the
      header and one row per taxonomy. */
  method ExportTaxonomies(taxonomies: seq<Record>, includeFields: Option<seq<string>>) returns (r: CsvExport)
    ensures taxonomies == [] ==> r == Placeholder("No taxonomies found", "taxonomy_empty.csv")
    ensures taxonomies != [] ==> r.Table? && r.header == Fields(includeFields, TaxonomyDefaultFields)
    ensures taxonomies != [] ==> |r.rows| == |taxonomies|
    ensures taxonomies != [] ==> forall i :: 0 <= i < |taxonomies| ==> |r.rows[i]| == |r.header|
    ensures taxonomies != [] ==> forall i, j :: 0 <= i < |taxonomies| && 0 <= j < |r.header| ==>
              r.rows[i][j] == TaxonomyCell(Attr(taxonomies[i], r.header[j]))
  {
    if taxonomies == [] {
      return Placeholder("No taxonomies found", "taxonomy_empty.csv");
    }
    var fields := Fields(includeFields, TaxonomyDefaultFields);
    var rows: seq<seq<Value>> := [];
    var i := 0;
    while i < |taxonomies|
      invariant 0 <= i <= |taxonomies| && |rows| == i
      invariant forall k :: 0 <= k < i ==> |rows[k]| == |fields|
      invariant forall k, j :: 0 <= k < i && 0 <= j < |fields| ==> rows[k][j] == TaxonomyCell(Attr(taxonomies[k], fields[j]))
    {
      var row := TaxonomyRow(taxonomies[i], fields);
      rows := rows + [row];
      i := i + 1;
    }
    return Table(fields, rows);
  }

  /** One Bracken row: the two ids as they are, then the six numbers with `or ''`. */
  function BrackenRow(result: Record): (row: seq<Value>)
    ensures |row| == |BrackenFields|
    ensures row[0] == Attr(result, "patient_id") && row[1] == Attr(result, "taxonomy_id")
    ensures forall j :: 2 <= j < |row| ==> row[j] == OrEmpty(Attr(result, BrackenFields[j]))
  {
    [Attr(result, "patient_id"), Attr(result, "taxonomy_id")]
    + seq(6, k requires 0 <= k < 6 => OrEmpty(Attr(result, BrackenFields[k + 2])))
  }

  /** `export_bracken_results_to_csv`. */
  method ExportBracken(results: seq<Record>) returns (r: CsvExport)
    ensures results == [] ==> r == Placeholder("No bracken results found", "bracken_empty.csv")
    ensures results != [] ==> r.Table? && r.header == BrackenFields && |r.rows| == |results|
    ensures results != [] ==> forall i :: 0 <= i < |results| ==> r.rows[i] == BrackenRow(results[i])
  {
    if results == [] {
      return Placeholder("No bracken results found", "bracken_empty.csv");
    }
    var rows: seq<seq<Value>> := [];
    var i := 0;
    while i < |results|
      invariant 0 <= i <= |results| && |rows| == i
      invariant forall k :: 0 <= k < i ==> rows[k] == BrackenRow(results[k])
    {
      rows := rows + [BrackenRow(results[i])];
      i := i + 1;
    }
    return Table(BrackenFields, rows);
  }

  /** A zero abundance exports as an empty cell, like a missing one. */
  lemma ZeroAbundanceExportsEmpty(result: Record)
    requires "abundance_pre" in result && result["abundance_pre"] == Num(0.0)
    ensures BrackenRow(result)[2] == Str("")
  {
  }

  // ---------------------------------------------------------------------------
  // File name filter
  // ---------------------------------------------------------------------------

  /** `c.isalnum() or c in (' ', '-', '_')`, on ASCII letters and digits. */
  predicate NameChar(c: char) {
    ('a' <= c <= 'z') || ('A' <= c <= 'Z') || ('0' <= c <= '9') || c == ' ' || c == '-' || c == '_'
  }

  function KeepNameChars(s: string): (r: string)
    ensures forall k :: 0 <= k < |r| ==> NameChar(r[k])
    ensures (forall k :: 0 <= k < |s| ==> NameChar(s[k])) ==> r == s
    ensures |r| <= |s|
    ensures |s| == 1 ==> r == (if NameChar(s[0]) then s else [])
  {
    if s == [] then []
    else KeepNameChars(s[..|s| - 1]) + (if NameChar(s[|s| - 1]) then [s[|s| - 1]] else [])
  }

  /** The analysis name as it appears in the export file name: only name
      characters, without surrounding spaces. */
  function SafeName(name: string): (r: string)
    ensures forall k :: 0 <= k < |r| ==> NameChar(r[k])
    ensures IsTrimmed(r)
    ensures (forall k :: 0 <= k < |name| ==> NameChar(name[k])) && IsTrimmed(name) ==> r == name
  {
    var kept := KeepNameChars(name);
    TrimChars(kept);
    Trim(kept)
  }

  /** The filter works character by character: the name characters of a
      concatenation are those of each part, in order. */
  lemma {:induction false} KeepNameCharsAppend(a: string, b: string)
    ensures KeepNameChars(a + b) == KeepNameChars(a) + KeepNameChars(b)
  {
    if b != [] {
      var b' := b[..|b| - 1];
      assert (a + b)[..|a + b| - 1] == a + b';
      KeepNameCharsAppend(a, b');
    } else {
      assert a + b == a;
    }
  }

  /** A character that is not a name character leaves no trace in the safe name. */
  lemma SafeNameDropsOther(a: string, c: char, b: string)
    requires !NameChar(c)
    ensures SafeName(a + [c] + b) == SafeName(a + b)
  {
    KeepNameCharsAppend(a + [c], b);
    KeepNameCharsAppend(a, [c]);
    KeepNameCharsAppend(a, b);
    assert KeepNameChars([c]) == [];
    assert KeepNameChars(a + [c] + b) == KeepNameChars(a + b);
  }

  /** A name character survives: the kept characters of the name hold it
      between those of its two sides. */
  lemma SafeNameKeepsNameChar(a: string, c: char, b: string)
    requires NameChar(c)
    ensures KeepNameChars(a + [c] + b) == KeepNameChars(a) + [c] + KeepNameChars(b)
  {
    KeepNameCharsAppend(a + [c], b);
    KeepNameCharsAppend(a, [c]);
  }

  /** Filtering an already safe name changes nothing. */
  lemma SafeNameIdempotent(name: string)
    ensures SafeName(SafeName(name)) == SafeName(name)
  {
    var safe := SafeName(name);
    assert KeepNameChars(safe) == safe;
    TrimOfTrimmed(safe);
  }

  // ---------------------------------------------------------------------------
  // Publication report pieces
  // ---------------------------------------------------------------------------

  const MethodologyUnavailable: string := "Methodology information not available."
  const MethodologyMissing: string := "Analysis methodology details not available."

  const CoxMethodology: string :=
    "Cox proportional hazards regression analysis was performed to assess the relationship between variables and survival outcomes. The model was fitted using the partial likelihood method."
  const KaplanMeierMethodology: string :=
    "Kaplan-Meier survival analysis was performed to estimate survival probabilities. Log-rank test was used to compare survival curves between groups."
  const RmstMethodology: string :=
    "Restricted Mean Survival Time (RMST) analysis was performed to compare survival outcomes between groups while accounting for restricted follow-up time."
  const WilcoxonMethodology: string :=
    "Wilcoxon signed-rank test was performed to compare paired samples for significant differences."
  const CorrelationMethodology: string :=
    "Correlation analysis was performed to assess the strength and direction of relationships between variables."

  /** The analysis types `_get_methodology_text` has a text for. */
  predicate Documented(t: AnalysisType) {
    t.CoxRegression? || t.KaplanMeier? || t.Rmst? || t.Wilcoxon? || t.Correlation?
  }

  /** `_get_methodology_text`: a fixed text for five analysis types, a
      fallback for the others and for a missing type. */
  function MethodologyText(t: Option<AnalysisType>): (r: string)
    ensures t.None? ==> r == MethodologyUnavailable
    ensures t.Some? && !Documented(t.value) ==> r == MethodologyMissing
  {
    if t.None? then MethodologyUnavailable
    else match t.value
      case CoxRegression => CoxMethodology
      case KaplanMeier => KaplanMeierMethodology
      case Rmst => RmstMethodology
      case Wilcoxon => WilcoxonMethodology
      case Correlation => CorrelationMethodology
      case _ => MethodologyMissing
  }

  const SummaryFields: set<string> := {"sample_size", "test_statistic", "p_value", "effect_size", "confidence_interval"}

  /** `_create_statistical_summary`: five fields at 'N/A'; truthy object
      results override p_value and sample_size when they hold them. */
  method StatisticalSummary(results: Option<Json>) returns (summary: map<string, Json>)
    ensures summary.Keys == SummaryFields
    ensures forall k :: k in summary && k != "p_value" && k != "sample_size" ==> summary[k] == JStr("N/A")
    ensures forall k :: k in {"p_value", "sample_size"} ==>
              summary[k] == if Truthy(results) && results.value.JObject? && k in results.value.fields
                            then results.value.fields[k] else JStr("N/A")
  {
    summary := map["sample_size" := JStr("N/A"), "test_statistic" := JStr("N/A"), "p_value" := JStr("N/A"),
                   "effect_size" := JStr("N/A"), "confidence_interval" := JStr("N/A")];
    if Truthy(results) && results.value.JObject? {
      var fields := results.value.fields;
      if "p_value" in fields {
        summary := summary["p_value" := fields["p_value"]];
      }
      if "sample_size" in fields {
        summary := summary["sample_size" := fields["sample_size"]];
      }
    }
  }

  predicate IsLetter(c: char) {
    ('a' <= c <= 'z') || ('A' <= c <= 'Z')
  }

  function UpperChar(c: char): char {
    if 'a' <= c <= 'z' then (c as int - 32) as char else c
  }

  /** `str.title()` on ASCII: a letter is upper-cased when it starts a word
      (it does not follow a letter) and lower-cased otherwise. */
  function Title(s: string): (r: string)
    ensures |r| == |s|
    ensures forall k :: 0 <= k < |s| && !IsLetter(s[k]) ==> r[k] == s[k]
    ensures forall k :: 0 <= k < |s| && IsLetter(s[k]) ==>
              r[k] == if k == 0 || !IsLetter(s[k - 1]) then UpperChar(s[k]) else LowerChar(s[k])
  {
    seq(|s|, k requires 0 <= k < |s| =>
      if !IsLetter(s[k]) then s[k]
      else if k == 0 || !IsLetter(s[k - 1]) then UpperChar(s[k]) else LowerChar(s[k]))
  }

  /** `s.replace('_', ' ')`. */
  function Spaced(s: string): (r: string)
    ensures |r| == |s| && '_' !in r
    ensures forall k :: 0 <= k < |s| && s[k] != '_' ==> r[k] == s[k]
    ensures forall k :: 0 <= k < |s| && s[k] == '_' ==> r[k] == ' '
  {
    seq(|s|, k requires 0 <= k < |s| => if s[k] == '_' then ' ' else s[k])
  }

  datatype Figure = Figure(kind: string, title: string, data: Json, caption: string)

  /** The figure for one visualization entry. */
  function FigureFor(name: string, entry: (string, Json)): Figure {
    Figure(entry.0, name + " - " + Title(Spaced(entry.0)), entry.1,
           "Figure showing " + Spaced(entry.0) + " for " + name)
  }

  /** `_prepare_figure_data`: one figure per visualization entry, in the
      entries' order; none when the data is None or empty. */
  method PrepareFigureData(name: string, visualization: Option<seq<(string, Json)>>) returns (figures: seq<Figure>)
    ensures visualization.None? ==> figures == []
    ensures visualization.Some? ==> |figures| == |visualization.value|
    ensures visualization.Some? ==> forall i :: 0 <= i < |figures| ==> figures[i] == FigureFor(name, visualization.value[i])
  {
    figures := [];
    if visualization.Some? && visualization.value != [] {
      var entries := visualization.value;
      var i := 0;
      while i < |entries|
        invariant 0 <= i <= |entries| && |figures| == i
        invariant forall k :: 0 <= k < i ==> figures[k] == FigureFor(name, entries[k])
      {
        var figure := Figure(entries[i].0, name + " - " + Title(Spaced(entries[i].0)), entries[i].1,
                             "Figure showing " + Spaced(entries[i].0) + " for " + name);
        figures := figures + [figure];
        i := i + 1;
      }
    }
  }

  /** A figure title is the analysis name, a dash, and the title-cased kind. */
  lemma FigureTitleShape(name: string, entry: (string, Json))
    ensures |FigureFor(name, entry).title| == |name| + 3 + |entry.0|
    ensures FigureFor(name, entry).title[..|name| + 3] == name + " - "
  {
  }
}
