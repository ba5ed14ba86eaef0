/** A pandas DataFrame as the ingestion code sees it: column labels and rows
    of optional cells (None is NaN). */
module Frames {
  import opened Wrappers
  import opened Text

  type Cell = Option<string>

  datatype Frame = Frame(labels: seq<string>, rows: seq<seq<Cell>>)

  /** Every row has one cell per label; every frame pandas builds has this shape. */
  predicate Rectangular(f: Frame) {
    forall i :: 0 <= i < |f.rows| ==> |f.rows[i]| == |f.labels|
  }

  /** `df.size`: rows times columns. */
  function Size(f: Frame): nat {
    |f.rows| * |f.labels|
  }

  /** `df.empty`: no rows or no columns. */
  predicate IsEmpty(f: Frame) {
    |f.rows| == 0 || |f.labels| == 0
  }

  /** The empty `pd.DataFrame()`. */
  const EmptyFrame := Frame([], [])

  function RowNonNull(row: seq<Cell>): nat {
    if row == [] then 0 else RowNonNull(row[..|row| - 1]) + (if row[|row| - 1].Some? then 1 else 0)
  }

  /** `df.notna().sum().sum()`. */
  function NonNull(rows: seq<seq<Cell>>): nat {
    if rows == [] then 0 else NonNull(rows[..|rows| - 1]) + RowNonNull(rows[|rows| - 1])
  }

  predicate HasCell(rows: seq<seq<Cell>>) {
    exists i, j :: 0 <= i < |rows| && 0 <= j < |rows[i]| && rows[i][j].Some?
  }

  lemma {:induction false} RowNonNullPositive(row: seq<Cell>)
    ensures RowNonNull(row) > 0 <==> exists j :: 0 <= j < |row| && row[j].Some?
  {
    if row != [] {
      var init := row[..|row| - 1];
      RowNonNullPositive(init);
      if exists j :: 0 <= j < |init| && init[j].Some? {
        var j :| 0 <= j < |init| && init[j].Some?;
        assert row[j] == init[j];
      }
    }
  }

  /** The non-null count is positive exactly when some cell is present. */
  lemma {:induction false} NonNullPositive(rows: seq<seq<Cell>>)
    ensures NonNull(rows) > 0 <==> HasCell(rows)
  {
    if rows != [] {
      var init := rows[..|rows| - 1];
      var last := rows[|rows| - 1];
      NonNullPositive(init);
      RowNonNullPositive(last);
      if HasCell(init) {
        var i, j :| 0 <= i < |init| && 0 <= j < |init[i]| && init[i][j].Some?;
        assert rows[i] == init[i];
      }
      if HasCell(rows) {
        var i, j :| 0 <= i < |rows| && 0 <= j < |rows[i]| && rows[i][j].Some?;
        if i < |init| {
          assert init[i] == rows[i];
        }
      }
    }
  }

  /** `_has_meaningful_data`: a frame of size 0 has none; otherwise some cell must be non-null. */
  function HasMeaningfulData(f: Frame): (r: bool)
    ensures r ==> HasCell(f.rows)
    ensures Rectangular(f) ==> (r <==> HasCell(f.rows))
  {
    NonNullPositive(f.rows);
    if Size(f) == 0 then
      assert |f.rows| == 0 || |f.labels| == 0;
      false
    else NonNull(f.rows) > 0
  }

  /** `str(label)` of a cell promoted to a column label: NaN renders as "nan". */
  function LabelText(c: Cell): string {
    c.GetOr("nan")
  }

  function LabelsOf(row: seq<Cell>): (r: seq<string>)
    ensures |r| == |row|
    ensures forall j :: 0 <= j < |row| ==> r[j] == LabelText(row[j])
  {
    seq(|row|, j requires 0 <= j < |row| => LabelText(row[j]))
  }

  /** The labels pandas gives a frame read with `header=None`: the positions 0..w-1. */
  function PositionLabels(w: nat): (r: seq<string>)
    ensures |r| == w
  {
    seq(w, j requires 0 <= j < w => NatToString(j))
  }

  /** `df.iloc[1:]`, then, when the rest is not empty, its first row promoted to
      the header (`df.columns = df.iloc[0]; df = df[1:]`). */
  function PromoteAfterSkip(f: Frame): (r: Frame)
    ensures Rectangular(f) ==> Rectangular(r)
  {
    var rest := Frame(f.labels, if |f.rows| == 0 then [] else f.rows[1..]);
    if IsEmpty(rest) then rest
    else Frame(LabelsOf(rest.rows[0]), rest.rows[1..])
  }

  /** After skipping and promoting, the header is the second row and the data starts at the third. */
  lemma PromoteTakesSecondRow(f: Frame)
    requires |f.rows| >= 2 && |f.labels| > 0
    ensures PromoteAfterSkip(f).labels == LabelsOf(f.rows[1])
    ensures PromoteAfterSkip(f).rows == f.rows[2..]
  {
  }

  /** A frame with fewer than two rows keeps its labels and has no data after promoting. */
  lemma PromoteShortFrame(f: Frame)
    requires |f.rows| < 2
    ensures PromoteAfterSkip(f) == Frame(f.labels, [])
  {
  }
}
