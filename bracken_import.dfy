/** The timepoint decomposition of a Bracken abundance table: every data column
    is named `<patient><suffix>`, the suffix naming a timepoint; each usable cell
    is stored on the (patient, taxonomy) record at that timepoint and the record's
    deltas are recomputed. Three script variants do this: two trim names and
    parse before creating a record, one keeps raw names and creates first. */
module BrackenImport {
  import opened Wrappers
  import opened Text
  import opened Frames
  import opened ColumnOps
  import opened TaxonomyModels

  /** (patient id, taxonomy id): the user is fixed for one run. */
  type Key = (string, string)

  /** The user's `BrackenResult` rows, one per key. */
  type Store = map<Key, Timepoints>

  /** The ordered (timepoint key, suffix) pairs of `BRACKEN_TIME_POINTS`. */
  type SuffixTable = seq<(string, string)>

  /** `col[:-len(suffix)]` for a column that ends with `suffix`; "" for an empty suffix. */
  function StripSuffix(col: string, suffix: string): (r: string)
    requires EndsWith(col, suffix)
    ensures suffix != "" ==> r + suffix == col
  {
    if suffix == "" then "" else col[..|col| - |suffix|]
  }

  predicate MatchesAt(col: string, table: SuffixTable, i: nat)
    requires i < |table|
  {
    EndsWith(col, table[i].1)
  }

  /** The first suffix the column ends with, as (timepoint key, patient id). */
  function MatchSuffix(col: string, table: SuffixTable): (r: Option<(string, string)>)
    ensures r.None? ==> forall i :: 0 <= i < |table| ==> !MatchesAt(col, table, i)
    ensures r.Some? ==> exists i :: 0 <= i < |table| && MatchesAt(col, table, i)
                          && (forall j :: 0 <= j < i ==> !MatchesAt(col, table, j))
                          && r.value == (table[i].0, StripSuffix(col, table[i].1))
  {
    if table == [] then None
    else if EndsWith(col, table[0].1) then Some((table[0].0, StripSuffix(col, table[0].1)))
    else
      var r := MatchSuffix(col, table[1..]);
      assert forall i :: 1 <= i < |table| ==> (MatchesAt(col, table, i) <==> MatchesAt(col, table[1..], i - 1));
      r
  }

  /** Where a column's values go, as (patient id, timepoint): None when no suffix
      matches or the first match leaves an empty patient id or timepoint key. */
  function Target(col: string, table: SuffixTable): (r: Option<(string, string)>)
    ensures r.Some? ==> r.value.0 != "" && r.value.1 != ""
  {
    var m := MatchSuffix(col, table);
    if m.None? || m.value.1 == "" || m.value.0 == "" then None else Some((m.value.1, m.value.0))
  }

  /** A column's target is read off its first matching suffix: the column is the
      patient id followed by the suffix of that timepoint. */
  lemma TargetRebuildsColumn(col: string, table: SuffixTable, patient: string, timepoint: string)
    requires Target(col, table) == Some((patient, timepoint))
    ensures exists i :: 0 <= i < |table| && table[i].0 == timepoint && col == patient + table[i].1
                        && forall j :: 0 <= j < i ==> !MatchesAt(col, table, j)
  {
    var i :| 0 <= i < |table| && MatchesAt(col, table, i)
             && (forall j :: 0 <= j < i ==> !MatchesAt(col, table, j))
             && MatchSuffix(col, table).value == (table[i].0, StripSuffix(col, table[i].1));
    assert table[i].1 != "";
  }

  /** A cell is used when present and its trimmed text is neither "-" nor "". */
  predicate Usable(c: Cell) {
    c.Some? && Trim(c.value) != "-" && Trim(c.value) != ""
  }

  function Get(store: Store, key: Key): Timepoints {
    if key in store then store[key] else NoValues
  }

  /** Get-or-create the record, set the timepoint, recompute the deltas. */
  function Put(store: Store, key: Key, timepoint: string, v: real): (r: Store)
    ensures r.Keys == store.Keys + {key}
    ensures forall k :: k in store && k != key ==> r[k] == store[k]
    ensures timepoint in {"pre", "during", "post"} ==> AbundanceAt(r[key], timepoint) == Some(v)
    ensures forall other :: other != timepoint ==> AbundanceAt(r[key], other) == AbundanceAt(Get(store, key), other)
  {
    store[key := WithDeltas(SetTimepoint(Get(store, key), timepoint, v))]
  }

  /** The data columns of a row: (column name, cell) for every column after the first. */
  function DataCells(labels: seq<string>, row: seq<Cell>): (r: seq<(string, Cell)>)
    requires |labels| >= 1
    ensures |r| == |labels| - 1
  {
    seq(|labels| - 1, k requires 0 <= k < |labels| - 1 => (labels[k + 1], CellAt(row, k + 1)))
  }

  /** One data cell. With `raw` false (names trimmed), nothing is touched unless
      the value parses; with `raw` true the record is created before parsing.
      The flag says whether a value was stored. */
  function CellEffect(store: Store, taxonomy: string, col: string, cell: Cell, table: SuffixTable,
                      parse: string -> Option<real>, raw: bool): (Store, bool)
  {
    if !Usable(cell) then (store, false)
    else
      var target := Target(if raw then col else Trim(col), table);
      if target.None? then (store, false)
      else
        var key := (target.value.0, taxonomy);
        var created := if raw && key !in store then store[key := NoValues] else store;
        var v := parse(cell.value);
        if v.None? then (created, false)
        else (Put(created, key, target.value.1, v.value), true)
  }

  /** All data cells of a row, left to right; the flag is `row_has_data`. */
  function RowEffect(store: Store, taxonomy: string, cells: seq<(string, Cell)>, table: SuffixTable,
                     parse: string -> Option<real>, raw: bool): (Store, bool)
  {
    if cells == [] then (store, false)
    else
      var (s, stored) := RowEffect(store, taxonomy, cells[..|cells| - 1], table, parse, raw);
      var (col, cell) := cells[|cells| - 1];
      var (s2, now) := CellEffect(s, taxonomy, col, cell, table, parse, raw);
      (s2, stored || now)
  }

  method ProcessCell(store: Store, taxonomy: string, col: string, cell: Cell, table: SuffixTable,
                     parse: string -> Option<real>, raw: bool) returns (s: Store, stored: bool)
    ensures (s, stored) == CellEffect(store, taxonomy, col, cell, table, parse, raw)
  {
    s, stored := store, false;
    if Usable(cell) {
      var target := Target(if raw then col else Trim(col), table);
      if target.Some? {
        var key := (target.value.0, taxonomy);
        if raw && key !in s {
          s := s[key := NoValues];
        }
        var v := parse(cell.value);
        if v.Some? {
          s := Put(s, key, target.value.1, v.value);
          stored := true;
        }
      }
    }
  }

  method ProcessRow(store: Store, taxonomy: string, labels: seq<string>, row: seq<Cell>, table: SuffixTable,
                    parse: string -> Option<real>, raw: bool) returns (s: Store, rowHasData: bool)
    requires |labels| >= 1
    ensures (s, rowHasData) == RowEffect(store, taxonomy, DataCells(labels, row), table, parse, raw)
  {
    var cells := DataCells(labels, row);
    s, rowHasData := store, false;
    var k := 0;
    while k < |cells|
      invariant 0 <= k <= |cells|
      invariant (s, rowHasData) == RowEffect(store, taxonomy, cells[..k], table, parse, raw)
    {
      assert cells[..k + 1][..k] == cells[..k];
      var (col, cell) := cells[k];
      var s2, now := ProcessCell(s, taxonomy, col, cell, table, parse, raw);
      s, rowHasData := s2, rowHasData || now;
      k := k + 1;
    }
    assert cells[..k] == cells;
  }

  // ---------------------------------------------------------------------------
  // The trimming variants (first 100 rows, or first 50 for the main user).
  // ---------------------------------------------------------------------------

  /** `str(row.iloc[0]).strip()`: a missing cell reads as "nan". */
  function TrimmedId(row: seq<Cell>): string {
    Trim(LabelText(CellAt(row, 0)))
  }

  /** The rows in order: a row with a blank id is skipped; a row that stored a
      value is counted and committed, and a failed commit rolls it back. */
  function TrimmedRows(labels: seq<string>, rows: seq<seq<Cell>>, table: SuffixTable,
                       parse: string -> Option<real>, commitOk: nat -> bool): (Store, nat)
    requires |labels| >= 1
  {
    if rows == [] then (map[], 0)
    else
      var (s, added) := TrimmedRows(labels, rows[..|rows| - 1], table, parse, commitOk);
      var row := rows[|rows| - 1];
      var id := TrimmedId(row);
      if id == "" then (s, added)
      else
        var (s1, rowHasData) := RowEffect(s, id, DataCells(labels, row), table, parse, false);
        if !rowHasData then (s1, added)
        else (if commitOk(|rows| - 1) then s1 else s, added + 1)
  }

  function Head(rows: seq<seq<Cell>>, n: nat): seq<seq<Cell>> {
    if |rows| <= n then rows else rows[..n]
  }

  /** `test_bracken_import` of the manual script and `test_bracken_for_main_user`:
      the store starts empty (the user's rows were deleted) and the first
      `limit` rows are decomposed. */
  method DecomposeTrimmed(labels: seq<string>, rows: seq<seq<Cell>>, limit: nat, table: SuffixTable,
                          parse: string -> Option<real>, commitOk: nat -> bool)
    returns (store: Store, recordsAdded: nat)
    requires |labels| >= 1
    ensures (store, recordsAdded) == TrimmedRows(labels, Head(rows, limit), table, parse, commitOk)
    ensures recordsAdded <= limit
  {
    var head := Head(rows, limit);
    store, recordsAdded := map[], 0;
    var i := 0;
    while i < |head|
      invariant 0 <= i <= |head|
      invariant (store, recordsAdded) == TrimmedRows(labels, head[..i], table, parse, commitOk)
      invariant recordsAdded <= i
    {
      assert head[..i + 1][..i] == head[..i];
      var row := head[i];
      var id := TrimmedId(row);
      if id != "" {
        var s1, rowHasData := ProcessRow(store, id, labels, row, table, parse, false);
        if rowHasData {
          recordsAdded := recordsAdded + 1;
          if commitOk(i) {
            store := s1;
          }
        } else {
          store := s1;
        }
      }
      i := i + 1;
    }
    assert head[..i] == head;
  }

  /** The manual script reads the first 100 rows. */
  method ManualScript(labels: seq<string>, rows: seq<seq<Cell>>, table: SuffixTable,
                      parse: string -> Option<real>, commitOk: nat -> bool)
    returns (store: Store, recordsAdded: nat)
    requires |labels| >= 1
    ensures (store, recordsAdded) == TrimmedRows(labels, Head(rows, 100), table, parse, commitOk)
    ensures recordsAdded <= 100
  {
    store, recordsAdded := DecomposeTrimmed(labels, rows, 100, table, parse, commitOk);
  }

  /** The main-user script reads the first 50 rows. */
  method MainUserScript(labels: seq<string>, rows: seq<seq<Cell>>, table: SuffixTable,
                        parse: string -> Option<real>, commitOk: nat -> bool)
    returns (store: Store, recordsAdded: nat)
    requires |labels| >= 1
    ensures (store, recordsAdded) == TrimmedRows(labels, Head(rows, 50), table, parse, commitOk)
    ensures recordsAdded <= 50
  {
    store, recordsAdded := DecomposeTrimmed(labels, rows, 50, table, parse, commitOk);
  }

  // ---------------------------------------------------------------------------
  // The raw variant (first 10 rows).
  // ---------------------------------------------------------------------------

  /** The id cell must be present and not blank; the id is its untrimmed text. */
  function RawId(row: seq<Cell>): Option<string> {
    var c := CellAt(row, 0);
    if c.None? || Trim(c.value) == "" then None else c
  }

  /** Every row with an id is committed as a whole; a committed row counts
      whether or not it stored a value, a failed commit rolls it back. */
  function RawRows(labels: seq<string>, rows: seq<seq<Cell>>, table: SuffixTable,
                   parse: string -> Option<real>, commitOk: nat -> bool): (Store, nat)
    requires |labels| >= 1
  {
    if rows == [] then (map[], 0)
    else
      var (s, added) := RawRows(labels, rows[..|rows| - 1], table, parse, commitOk);
      var row := rows[|rows| - 1];
      var id := RawId(row);
      if id.None? then (s, added)
      else
        var (s1, _) := RowEffect(s, id.value, DataCells(labels, row), table, parse, true);
        if commitOk(|rows| - 1) then (s1, added + 1) else (s, added)
  }

  /** `test_bracken_import` of the raw script: the first 10 rows. */
  method RawScript(labels: seq<string>, rows: seq<seq<Cell>>, table: SuffixTable,
                   parse: string -> Option<real>, commitOk: nat -> bool)
    returns (store: Store, recordsAdded: nat)
    requires |labels| >= 1
    ensures (store, recordsAdded) == RawRows(labels, Head(rows, 10), table, parse, commitOk)
    ensures recordsAdded <= 10
  {
    var head := Head(rows, 10);
    store, recordsAdded := map[], 0;
    var i := 0;
    while i < |head|
      invariant 0 <= i <= |head|
      invariant (store, recordsAdded) == RawRows(labels, head[..i], table, parse, commitOk)
      invariant recordsAdded <= i
    {
      assert head[..i + 1][..i] == head[..i];
      var row := head[i];
      var id := RawId(row);
      if id.Some? {
        var s1, _ := ProcessRow(store, id.value, labels, row, table, parse, true);
        if commitOk(i) {
          store := s1;
          recordsAdded := recordsAdded + 1;
        }
      }
      i := i + 1;
    }
    assert head[..i] == head;
  }

  // ---------------------------------------------------------------------------
  // Properties.
  // ---------------------------------------------------------------------------

  predicate AllAgree(store: Store) {
    forall k :: k in store ==> DeltasAgree(store[k])
  }

  lemma {:induction false} RowEffectKeepsAgreement(store: Store, taxonomy: string, cells: seq<(string, Cell)>,
                                                  table: SuffixTable, parse: string -> Option<real>, raw: bool)
    requires AllAgree(store)
    ensures AllAgree(RowEffect(store, taxonomy, cells, table, parse, raw).0)
  {
    if cells != [] {
      RowEffectKeepsAgreement(store, taxonomy, cells[..|cells| - 1], table, parse, raw);
    }
  }

  /** Deltas are recomputed after every stored value: in the trimming variants
      every record's deltas agree with its abundances. */
  lemma {:induction false} TrimmedDeltasAgree(labels: seq<string>, rows: seq<seq<Cell>>, table: SuffixTable,
                                              parse: string -> Option<real>, commitOk: nat -> bool)
    requires |labels| >= 1
    ensures AllAgree(TrimmedRows(labels, rows, table, parse, commitOk).0)
  {
    if rows != [] {
      var init := rows[..|rows| - 1];
      TrimmedDeltasAgree(labels, init, table, parse, commitOk);
      var s := TrimmedRows(labels, init, table, parse, commitOk).0;
      var row := rows[|rows| - 1];
      RowEffectKeepsAgreement(s, TrimmedId(row), DataCells(labels, row), table, parse, false);
    }
  }

  /** The same holds in the raw variant, whose empty records agree trivially. */
  lemma {:induction false} RawDeltasAgree(labels: seq<string>, rows: seq<seq<Cell>>, table: SuffixTable,
                                          parse: string -> Option<real>, commitOk: nat -> bool)
    requires |labels| >= 1
    ensures AllAgree(RawRows(labels, rows, table, parse, commitOk).0)
  {
    if rows != [] {
      var init := rows[..|rows| - 1];
      RawDeltasAgree(labels, init, table, parse, commitOk);
      var s := RawRows(labels, init, table, parse, commitOk).0;
      var row := rows[|rows| - 1];
      if RawId(row).Some? {
        RowEffectKeepsAgreement(s, RawId(row).value, DataCells(labels, row), table, parse, true);
      }
    }
  }

  /** In the trimming variants a row that stores nothing changes nothing. */
  lemma {:induction false} NoDataNoChange(store: Store, taxonomy: string, cells: seq<(string, Cell)>,
                                         table: SuffixTable, parse: string -> Option<real>)
    ensures !RowEffect(store, taxonomy, cells, table, parse, false).1 ==>
              RowEffect(store, taxonomy, cells, table, parse, false).0 == store
  {
    if cells != [] {
      NoDataNoChange(store, taxonomy, cells[..|cells| - 1], table, parse);
    }
  }

  /** Missing, "-" and blank cells are skipped entirely: a row made only of them
      stores nothing and creates no record, in every variant. */
  lemma {:induction false} UnusableCellsSkipped(store: Store, taxonomy: string, cells: seq<(string, Cell)>,
                                               table: SuffixTable, parse: string -> Option<real>, raw: bool)
    requires forall k :: 0 <= k < |cells| ==> !Usable(cells[k].1)
    ensures RowEffect(store, taxonomy, cells, table, parse, raw) == (store, false)
  {
    if cells != [] {
      UnusableCellsSkipped(store, taxonomy, cells[..|cells| - 1], table, parse, raw);
    }
  }

  /** In the trimming variants `records_added` grows by one exactly for a row with
      an id that stored a value, whether or not its commit succeeds. */
  lemma TrimmedCountsRowsWithData(labels: seq<string>, rows: seq<seq<Cell>>, row: seq<Cell>, table: SuffixTable,
                                  parse: string -> Option<real>, commitOk: nat -> bool)
    requires |labels| >= 1
    ensures var before := TrimmedRows(labels, rows, table, parse, commitOk);
            TrimmedRows(labels, rows + [row], table, parse, commitOk).1
            == before.1 + (if TrimmedId(row) != "" && RowEffect(before.0, TrimmedId(row), DataCells(labels, row), table, parse, false).1 then 1 else 0)
  {
    assert (rows + [row])[..|rows|] == rows;
  }

  /** In the raw variant `records_added` grows by one for every committed row
      with an id, even one that stored nothing. */
  lemma RawCountsCommittedRows(labels: seq<string>, rows: seq<seq<Cell>>, row: seq<Cell>, table: SuffixTable,
                               parse: string -> Option<real>, commitOk: nat -> bool)
    requires |labels| >= 1
    ensures RawRows(labels, rows + [row], table, parse, commitOk).1
            == RawRows(labels, rows, table, parse, commitOk).1 + (if RawId(row).Some? && commitOk(|rows|) then 1 else 0)
  {
    assert (rows + [row])[..|rows|] == rows;
  }

  /** In the raw variant a non-numeric cell in a matched column still leaves a
      record for its key, with that timepoint unset; the trimming variants create none. */
  lemma RawCreatesBeforeParse(taxonomy: string, col: string, text: string, table: SuffixTable,
                              parse: string -> Option<real>, patient: string, timepoint: string)
    requires Usable(Some(text)) && parse(text).None?
    requires Target(col, table) == Some((patient, timepoint))
    ensures CellEffect(map[], taxonomy, col, Some(text), table, parse, true) == (map[(patient, taxonomy) := NoValues], false)
    ensures Target(Trim(col), table) == Some((patient, timepoint)) ==>
              CellEffect(map[], taxonomy, col, Some(text), table, parse, false) == (map[], false)
  {
  }

  /** The manual and main-user scripts file a row with a missing id cell under the taxonomy "nan". */
  lemma MissingIdIsNan(row: seq<Cell>)
    requires row == [] || row[0].None?
    ensures TrimmedId(row) == "nan"
  {
    assert Trim("nan") == "nan" by { TrimOfTrimmed("nan"); }
  }
}
