/** The patient CSV repair tool: it counts the fields of every row of the
    semicolon-separated patient file and, when the counts differ, saves a
    backup and pads every short row with empty fields up to the longest row.
    The two files are fields of a store object; None is a missing file. */
module CsvFix {
  import opened Wrappers

  type Row = seq<string>

  /** The field count of every row, in row order. */
  function FieldCounts(rows: seq<Row>): (r: seq<nat>)
    ensures |r| == |rows| && forall i :: 0 <= i < |rows| ==> r[i] == |rows[i]|
  {
    seq(|rows|, i requires 0 <= i < |rows| => |rows[i]|)
  }

  /** The distinct field counts. */
  function DistinctCounts(rows: seq<Row>): (r: set<nat>)
    ensures forall n :: n in r <==> exists i :: 0 <= i < |rows| && |rows[i]| == n
  {
    set i | 0 <= i < |rows| :: |rows[i]|
  }

  /** The tool rewrites the file only when the rows disagree on their field count. */
  predicate Ragged(rows: seq<Row>) {
    |DistinctCounts(rows)| > 1
  }

  /** `max(len(row) for row in rows)`. */
  function MaxFields(rows: seq<Row>): (m: nat)
    requires rows != []
    ensures forall i :: 0 <= i < |rows| ==> |rows[i]| <= m
    ensures exists i :: 0 <= i < |rows| && |rows[i]| == m
  {
    if |rows| == 1 then |rows[0]|
    else
      var m := MaxFields(rows[..|rows| - 1]);
      assert forall i :: 0 <= i < |rows| - 1 ==> rows[i] == rows[..|rows| - 1][i];
      if |rows[|rows| - 1]| > m then |rows[|rows| - 1]| else m
  }

  /** `[''] * n`. */
  function Blanks(n: nat): (r: Row)
    ensures |r| == n && forall k :: 0 <= k < n ==> r[k] == ""
  {
    seq(n, k => "")
  }

  /** A row padded to `width` fields: its own fields first, then empty ones. */
  predicate PaddedTo(original: Row, fixed: Row, width: nat) {
    |original| <= width ==> |fixed| == width && fixed[..|original|] == original
                            && forall k :: |original| <= k < width ==> fixed[k] == ""
  }

  /** The outcome of `analyze_csv_structure`. */
  datatype Analysis =
    | FileMissing                                    // no file: returns None
    | EmptyFile                                      // `rows[0]` on no rows raises IndexError
    | Analyzed(rows: seq<Row>, counts: set<nat>)

  class CsvStore {
    /** `instance/patients.csv` as rows of fields. */
    var patients: Option<seq<Row>>
    /** `instance/patients_backup.csv`. */
    var backup: Option<seq<Row>>

    constructor (patients: Option<seq<Row>>, backup: Option<seq<Row>>)
      ensures this.patients == patients && this.backup == backup
    {
      this.patients := patients;
      this.backup := backup;
    }

    /** `analyze_csv_structure`: the rows and their distinct field counts;
        it reads the files and changes nothing. */
    method AnalyzeCsvStructure() returns (r: Analysis)
      ensures patients.None? <==> r.FileMissing?
      ensures r.EmptyFile? <==> patients == Some([])
      ensures r.Analyzed? ==> patients == Some(r.rows) && r.counts == DistinctCounts(r.rows)
    {
      if patients.None? {
        return FileMissing;
      }
      var rows := patients.value;
      if rows == [] {
        return EmptyFile;
      }
      var counts := FieldCounts(rows);
      var unique := set i | 0 <= i < |counts| :: counts[i];
      return Analyzed(rows, unique);
    }

    /** `fix_csv_structure`, on an existing file: False for an empty file,
        which is left alone; otherwise the original rows go to the backup
        and every row is padded to the longest row's field count. */
    method FixCsvStructure() returns (fixed: bool)
      requires patients.Some?
      modifies this
      ensures fixed <==> old(patients.value) != []
      ensures !fixed ==> patients == old(patients) && backup == old(backup)
      ensures fixed ==> backup == old(patients)
      ensures fixed ==> patients.Some? && |patients.value| == |old(patients.value)|
      ensures fixed ==> forall i :: 0 <= i < |patients.value| ==>
                PaddedTo(old(patients.value)[i], patients.value[i], MaxFields(old(patients.value)))
      ensures fixed ==> forall i :: 0 <= i < |patients.value| ==>
                (|old(patients.value)[i]| == MaxFields(old(patients.value)) ==> patients.value[i] == old(patients.value)[i])
    {
      var rows := patients.value;
      if rows == [] {
        return false;
      }
      backup := Some(rows);
      var maxFields := MaxFields(rows);
      var fixedRows: seq<Row> := [];
      var i := 0;
      while i < |rows|
        invariant 0 <= i <= |rows| && |fixedRows| == i
        invariant forall k :: 0 <= k < i ==> PaddedTo(rows[k], fixedRows[k], maxFields)
        invariant forall k :: 0 <= k < i && |rows[k]| == maxFields ==> fixedRows[k] == rows[k]
      {
        var row := rows[i];
        if |row| < maxFields {
          var padded := row + Blanks(maxFields - |row|);
          assert padded[..|row|] == row;
          fixedRows := fixedRows + [padded];
        } else {
          fixedRows := fixedRows + [row];
        }
        i := i + 1;
      }
      patients := Some(fixedRows);
      return true;
    }

    /** Step 2 of `main`: after a successful analysis, the file is repaired
        only when its rows are ragged. */
    method RepairIfNeeded(rows: seq<Row>) returns (ran: bool, ok: bool)
      requires patients == Some(rows) && rows != []
      modifies this
      ensures ran <==> Ragged(rows)
      ensures !ran ==> patients == old(patients) && backup == old(backup) && ok
      ensures ran ==> ok && backup == Some(rows) && patients.Some?
      ensures ran ==> DistinctCounts(patients.value) == {MaxFields(rows)}
    {
      var counts := FieldCounts(rows);
      var unique := set i | 0 <= i < |counts| :: counts[i];
      assert unique == DistinctCounts(rows);
      if |unique| > 1 {
        ok := FixCsvStructure();
        ran := true;
        PaddingLeavesOneCount(rows, patients.value);
      } else {
        ran, ok := false, true;
      }
    }
  }

  /** Rows padded to the longest row's width all have that width. */
  lemma PaddingLeavesOneCount(rows: seq<Row>, fixed: seq<Row>)
    requires rows != [] && |fixed| == |rows|
    requires forall i :: 0 <= i < |rows| ==> PaddedTo(rows[i], fixed[i], MaxFields(rows))
    ensures DistinctCounts(fixed) == {MaxFields(rows)}
    ensures !Ragged(fixed)
  {
    var m := MaxFields(rows);
    assert |fixed[0]| == m;
    assert DistinctCounts(fixed) == {m};
  }

  /** A file whose rows agree on their count is not ragged, and padding such
      rows to the maximum is the identity. */
  lemma UniformNotRagged(rows: seq<Row>, fixed: seq<Row>)
    requires rows != [] && |fixed| == |rows|
    requires forall i :: 0 <= i < |rows| ==> |rows[i]| == |rows[0]|
    requires forall i :: 0 <= i < |rows| ==> PaddedTo(rows[i], fixed[i], MaxFields(rows))
    ensures !Ragged(rows)
    ensures fixed == rows
  {
    assert DistinctCounts(rows) == {|rows[0]|};
    forall i | 0 <= i < |rows| ensures fixed[i] == rows[i] {
      assert fixed[i] == fixed[i][..|rows[i]|];
    }
  }
}
