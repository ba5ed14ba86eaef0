/** Mapping imported rows onto model fields: `map_patient_columns` and
    `map_taxonomy_columns` with its `_clean` helper. */
module DataMapping {
  import opened Wrappers
  import opened Text

  /** A value of an imported row: absent (None/NaN), text, or a number. */
  datatype Value = Null | Text(s: string) | Number(r: real)

  /** `map_patient_columns` hands its input back as it is. */
  function MapPatientColumns(patientData: map<string, Value>): (r: map<string, Value>)
    ensures r == patientData
  {
    patientData
  }

  predicate QuotedBy(v: string, q: char) {
    |v| >= 1 && v[0] == q && v[|v| - 1] == q
  }

  /** `_clean`: text is trimmed and loses one enclosing pair of ' or " quotes
      (a lone quote character counts as a pair), "" becomes absent, and other
      values pass unchanged. */
  function Clean(v: Value): (r: Value)
    ensures !v.Text? ==> r == v
    ensures v.Text? ==> r == Null || (r.Text? && r.s != "" && IsTrimmed(r.s))
    ensures v.Text? && !QuotedBy(Trim(v.s), '\'') && !QuotedBy(Trim(v.s), '"') ==>
              r == (if Trim(v.s) == "" then Null else Text(Trim(v.s)))
  {
    match v
    case Text(s) =>
      var t := Trim(s);
      var u := if QuotedBy(t, '\'') || QuotedBy(t, '"') then Trim(t[1..if |t| >= 2 then |t| - 1 else 1]) else t;
      if u == "" then Null else Text(u)
    case _ => v
  }

  /** A value enclosed in one pair of ' or " quotes loses the pair and the blanks
      just inside it; nothing but blanks inside makes it absent. */
  lemma CleanUnquotes(x: string, q: char)
    requires q == '\'' || q == '"'
    ensures Clean(Text([q] + x + [q])) == (if Trim(x) == "" then Null else Text(Trim(x)))
  {
    var t := [q] + x + [q];
    TrimOfTrimmed(t);
    assert QuotedBy(t, q);
    assert t[1..|t| - 1] == x;
  }

  /** A lone quote character counts as an enclosing pair and leaves nothing. */
  lemma LoneQuoteIsAbsent(q: char)
    requires q == '\'' || q == '"'
    ensures Clean(Text([q])) == Null
  {
    TrimOfTrimmed([q]);
    assert QuotedBy([q], q);
  }

  /** The model fields a taxonomy row may set. */
  const Allowed: set<string> := {"taxonomy_id", "asv", "domain", "phylum", "class_name", "order",
                                 "family", "genus", "species", "full_taxonomy", "classification_confidence"}

  /** The field a raw column name maps to: lower-cased and trimmed, with
      'class' and 'taxonomy' renamed. */
  function FieldFor(rawKey: string): string {
    var k := Trim(Lower(rawKey));
    if k == "class" then "class_name" else if k == "taxonomy" then "full_taxonomy" else k
  }

  /** One column of the row: its cleaned value goes to its field when the field
      is `allowed` (the import passes `Allowed`). */
  function MapItem(mapped: map<string, Value>, item: (Option<string>, Value), allowed: set<string>): (r: map<string, Value>)
    ensures forall f :: f in r <==> f in mapped || (item.0.Some? && FieldFor(item.0.value) == f && f in allowed)
    ensures forall f :: f in mapped && (item.0.None? || FieldFor(item.0.value) != f) ==> r[f] == mapped[f]
    ensures item.0.Some? && FieldFor(item.0.value) in allowed ==> r[FieldFor(item.0.value)] == Clean(item.1)
  {
    if item.0.None? then mapped
    else
      var field := FieldFor(item.0.value);
      if field in allowed then mapped[field := Clean(item.1)] else mapped
  }

  /** The mapped fields after the items, in order; a later column mapping to the
      same field overwrites an earlier one. */
  function MapItems(items: seq<(Option<string>, Value)>, allowed: set<string>): (r: map<string, Value>)
    ensures r.Keys <= allowed
  {
    if items == [] then map[]
    else MapItem(MapItems(items[..|items| - 1], allowed), items[|items| - 1], allowed)
  }

  /** `map_taxonomy_columns`: None or an empty row gives {}; otherwise the loop
      over the row fills `mapped` with the fields of `Allowed`. */
  method MapTaxonomyColumns(taxonomyData: Option<seq<(Option<string>, Value)>>) returns (mapped: map<string, Value>)
    ensures taxonomyData.None? || taxonomyData.value == [] ==> mapped == map[]
    ensures taxonomyData.Some? ==> mapped == MapItems(taxonomyData.value, Allowed)
    ensures mapped.Keys <= Allowed
  {
    if taxonomyData.None? || taxonomyData.value == [] {
      return map[];
    }
    mapped := MapColumns(taxonomyData.value, Allowed);
  }

  /** The loop of `map_taxonomy_columns` over the row's items, in order. */
  method MapColumns(items: seq<(Option<string>, Value)>, allowed: set<string>) returns (mapped: map<string, Value>)
    ensures mapped == MapItems(items, allowed)
  {
    mapped := map[];
    var i := 0;
    while i < |items|
      invariant 0 <= i <= |items|
      invariant mapped == MapItems(items[..i], allowed)
    {
      assert items[..i + 1][..i] == items[..i];
      var (rawKey, rawValue) := items[i];
      if rawKey.Some? {
        var field := FieldFor(rawKey.value);
        var v := Clean(rawValue);
        if field in allowed {
          mapped := mapped[field := v];
        }
      }
      assert mapped == MapItem(MapItems(items[..i], allowed), items[i], allowed);
      i := i + 1;
    }
    assert items[..i] == items;
  }

  /** Item `i` names `field`, an allowed field. */
  predicate SetsField(items: seq<(Option<string>, Value)>, i: nat, field: string, allowed: set<string>)
    requires i < |items|
  {
    items[i].0.Some? && FieldFor(items[i].0.value) == field && field in allowed
  }

  /** A field is present exactly when some column maps to it. */
  lemma {:induction false} MappedFieldPresent(items: seq<(Option<string>, Value)>, field: string, allowed: set<string>)
    ensures field in MapItems(items, allowed) <==> exists i :: 0 <= i < |items| && SetsField(items, i, field, allowed)
  {
    if items != [] {
      var n := |items| - 1;
      var init := items[..n];
      MappedFieldPresent(init, field, allowed);
      MapItemsLast(items, field, allowed);
      if field in MapItems(items, allowed) && !SetsField(items, n, field, allowed) {
        var i :| 0 <= i < |init| && SetsField(init, i, field, allowed);
        SetsFieldPrefix(items, n, i, field, allowed);
      }
      if i :| 0 <= i < n && SetsField(items, i, field, allowed) {
        SetsFieldPrefix(items, n, i, field, allowed);
      }
    }
  }

  /** The last item adds its field, if any, to those of the items before it. */
  lemma MapItemsLast(items: seq<(Option<string>, Value)>, field: string, allowed: set<string>)
    requires items != []
    ensures field in MapItems(items, allowed) <==> field in MapItems(items[..|items| - 1], allowed) || SetsField(items, |items| - 1, field, allowed)
  {
  }

  /** An item sets the same field in the whole list as in a prefix holding it. */
  lemma SetsFieldPrefix(items: seq<(Option<string>, Value)>, n: nat, i: nat, field: string, allowed: set<string>)
    requires i < n <= |items|
    ensures SetsField(items[..n], i, field, allowed) == SetsField(items, i, field, allowed)
  {
    assert items[..n][i] == items[i];
  }

  /** A field holds the cleaned value of the last column that maps to it. */
  lemma {:induction false} LastColumnWins(items: seq<(Option<string>, Value)>, field: string, allowed: set<string>, i: nat)
    requires i < |items| && SetsField(items, i, field, allowed)
    requires forall j :: i < j < |items| ==> !SetsField(items, j, field, allowed)
    ensures field in MapItems(items, allowed) && MapItems(items, allowed)[field] == Clean(items[i].1)
  {
    var init := items[..|items| - 1];
    if i < |items| - 1 {
      assert SetsField(init, i, field, allowed);
      assert !SetsField(items, |items| - 1, field, allowed);
      forall j | i < j < |init| ensures !SetsField(init, j, field, allowed) {
        assert !SetsField(items, j, field, allowed);
      }
      LastColumnWins(init, field, allowed, i);
    }
  }

  /** The columns 'Class' and 'TAXONOMY' are read as the class and full-taxonomy fields. */
  lemma RenamedColumns()
    ensures FieldFor("Class") == "class_name"
    ensures FieldFor("TAXONOMY") == "full_taxonomy"
  {
    assert Lower("Class") == "class";
    assert Lower("TAXONOMY") == "taxonomy";
    TrimOfTrimmed("class");
    TrimOfTrimmed("taxonomy");
  }
}
