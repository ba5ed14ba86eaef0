/** Column operations the import applies to a frame: `df.rename(columns=...)`,
    `df.drop(columns=[label])` and the duplicate resolution built on them. */
module ColumnOps {
  import opened Wrappers
  import opened Text
  import opened Frames
  import opened ColumnProfile

  /** Occurrences of `name` among `labels`. */
  function Occurrences(labels: seq<string>, name: string): (n: nat)
    ensures n <= |labels|
  {
    if labels == [] then 0
    else Occurrences(labels[..|labels| - 1], name) + (if labels[|labels| - 1] == name then 1 else 0)
  }

  lemma {:induction false} OccurrencesZero(labels: seq<string>, name: string)
    ensures Occurrences(labels, name) == 0 <==> name !in labels
  {
    if labels != [] {
      OccurrencesZero(labels[..|labels| - 1], name);
      assert labels == labels[..|labels| - 1] + [labels[|labels| - 1]];
    }
  }

  /** `df.rename(columns=renames)`: every label found among the keys is replaced,
      all at once (a new name is not renamed again). */
  function Rename(f: Frame, renames: map<string, string>): (r: Frame)
    ensures r.rows == f.rows && |r.labels| == |f.labels|
    ensures forall j :: 0 <= j < |f.labels| ==>
              r.labels[j] == (if f.labels[j] in renames then renames[f.labels[j]] else f.labels[j])
  {
    Frame(seq(|f.labels|, j requires 0 <= j < |f.labels| =>
                if f.labels[j] in renames then renames[f.labels[j]] else f.labels[j]), f.rows)
  }

  /** The CSV import lower-cases every label (`str(c).lower()`). */
  function LowerLabels(f: Frame): (r: Frame)
    ensures r.rows == f.rows && |r.labels| == |f.labels|
    ensures forall j :: 0 <= j < |f.labels| ==> r.labels[j] == Lower(f.labels[j])
  {
    Frame(seq(|f.labels|, j requires 0 <= j < |f.labels| => Lower(f.labels[j])), f.rows)
  }

  /** After lower-casing, a rename key holding an upper-case letter matches no column. */
  lemma UpperCaseRenameKeysIgnored(f: Frame, renames: map<string, string>)
    requires forall key :: key in renames ==> HasUpper(key)
    ensures Rename(LowerLabels(f), renames) == LowerLabels(f)
  {
    var g := LowerLabels(f);
    forall j | 0 <= j < |g.labels|
      ensures g.labels[j] !in renames
    {
      LowerHasNoUpper(f.labels[j]);
    }
  }

  function CellAt(row: seq<Cell>, j: nat): Cell {
    if j < |row| then row[j] else None
  }

  /** The frame restricted to the columns at `idxs`, in that order. */
  function Project(f: Frame, idxs: seq<nat>): (r: Frame)
    requires forall k :: 0 <= k < |idxs| ==> idxs[k] < |f.labels|
    ensures |r.labels| == |idxs| && |r.rows| == |f.rows|
    ensures Rectangular(r)
    ensures forall k :: 0 <= k < |idxs| ==> r.labels[k] == f.labels[idxs[k]]
  {
    Frame(seq(|idxs|, k requires 0 <= k < |idxs| => f.labels[idxs[k]]),
          seq(|f.rows|, i requires 0 <= i < |f.rows| =>
                seq(|idxs|, k requires 0 <= k < |idxs| => CellAt(f.rows[i], idxs[k]))))
  }

  /** Column `k` of a projection holds, in every row, the cells of column `idxs[k]`. */
  lemma ProjectCells(f: Frame, idxs: seq<nat>, i: nat, k: nat)
    requires forall k :: 0 <= k < |idxs| ==> idxs[k] < |f.labels|
    requires i < |f.rows| && k < |idxs|
    ensures Project(f, idxs).rows[i][k] == CellAt(f.rows[i], idxs[k])
  {
  }

  /** The ascending positions whose label is not `name`. */
  function Others(labels: seq<string>, name: string): (r: seq<nat>)
    ensures forall k :: 0 <= k < |r| ==> r[k] < |labels| && labels[r[k]] != name
    ensures |r| + Occurrences(labels, name) == |labels|
  {
    if labels == [] then []
    else Others(labels[..|labels| - 1], name) + (if labels[|labels| - 1] != name then [|labels| - 1] else [])
  }

  lemma {:induction false} OthersComplete(labels: seq<string>, name: string, j: nat)
    requires j < |labels| && labels[j] != name
    ensures j in Others(labels, name)
  {
    if j < |labels| - 1 {
      OthersComplete(labels[..|labels| - 1], name, j);
    }
  }

  /** `df.drop(columns=[name])`: pandas removes every column carrying that label. */
  function DropLabel(f: Frame, name: string): (r: Frame)
    ensures name !in r.labels
    ensures |r.labels| == |f.labels| - Occurrences(f.labels, name)
    ensures |r.rows| == |f.rows| && Rectangular(r)
  {
    var r := Project(f, Others(f.labels, name));
    assert forall k :: 0 <= k < |r.labels| ==> r.labels[k] != name;
    r
  }

  /** Every other label survives the drop. */
  lemma DropKeepsOthers(f: Frame, name: string, other: string)
    requires other != name && other in f.labels
    ensures other in DropLabel(f, name).labels
  {
    var j :| 0 <= j < |f.labels| && f.labels[j] == other;
    OthersComplete(f.labels, name, j);
    var idxs := Others(f.labels, name);
    var k :| 0 <= k < |idxs| && idxs[k] == j;
    assert DropLabel(f, name).labels[k] == other;
  }

  // ---------------------------------------------------------------------------
  // Duplicate resolution as written: drop by label.
  // ---------------------------------------------------------------------------

  /** One `duplicate_keep` entry as the import runs it: for every position `i`
      of the group other than `keepIdx`, drop the label if it is still there.
      The first such drop removes the whole group. */
  function ResolveAsWritten(f: Frame, name: string, keepIdx: int): Frame {
    var group := Occurrences(f.labels, name);
    if group >= 2 || (group == 1 && keepIdx != 0) then DropLabel(f, name) else f
  }

  /** The loop over the group of one `duplicate_keep` entry. */
  method ResolveDuplicate(f: Frame, name: string, keepIdx: int) returns (g: Frame)
    ensures g == ResolveAsWritten(f, name, keepIdx)
  {
    var group := Occurrences(f.labels, name);
    OccurrencesZero(f.labels, name);
    g := f;
    var i := 0;
    while i < group
      invariant 0 <= i <= group
      invariant g == (if i >= 2 || (i == 1 && keepIdx != 0) then DropLabel(f, name) else f)
    {
      if i != keepIdx && name in g.labels {
        g := DropLabel(g, name);
      }
      i := i + 1;
    }
  }

  /** As written, a group of two or more same-named columns disappears entirely,
      whichever position the user chose to keep. */
  lemma DuplicateGroupVanishes(f: Frame, name: string, keepIdx: int)
    requires Occurrences(f.labels, name) >= 2
    ensures name !in ResolveAsWritten(f, name, keepIdx).labels
  {
  }

  /** Every `duplicate_keep` entry applied in order. */
  function ResolveAllAsWritten(f: Frame, keeps: seq<(string, int)>): Frame {
    if keeps == [] then f
    else
      var (name, k) := keeps[|keeps| - 1];
      ResolveAsWritten(ResolveAllAsWritten(f, keeps[..|keeps| - 1]), name, k)
  }

  method ApplyDuplicateKeep(f: Frame, keeps: seq<(string, int)>) returns (g: Frame)
    ensures g == ResolveAllAsWritten(f, keeps)
  {
    g := f;
    var i := 0;
    while i < |keeps|
      invariant 0 <= i <= |keeps|
      invariant g == ResolveAllAsWritten(f, keeps[..i])
    {
      assert keeps[..i + 1][..i] == keeps[..i];
      var (name, keepIdx) := keeps[i];
      g := ResolveDuplicate(g, name, keepIdx);
      i := i + 1;
    }
    assert keeps[..i] == keeps;
  }

  // ---------------------------------------------------------------------------
  // Duplicate resolution as intended: keep the chosen occurrence by position.
  // ---------------------------------------------------------------------------

  /** The positions to keep: every column not named `name`, and the `keepIdx`-th
      (0-based) column named `name`. */
  function KeepPositions(labels: seq<string>, name: string, keepIdx: int): (r: seq<nat>)
    ensures forall k :: 0 <= k < |r| ==> r[k] < |labels|
  {
    if labels == [] then []
    else
      var n := |labels| - 1;
      KeepPositions(labels[..n], name, keepIdx)
      + (if labels[n] != name || Occurrences(labels[..n], name) == keepIdx then [n] else [])
  }

  /** Keeping the chosen occurrence of `name` and every other column, in order. */
  function KeepOccurrence(f: Frame, name: string, keepIdx: int): Frame {
    Project(f, KeepPositions(f.labels, name, keepIdx))
  }

  lemma {:induction false} KeepPositionsCount(labels: seq<string>, name: string, keepIdx: int)
    ensures Occurrences(Project(Frame(labels, []), KeepPositions(labels, name, keepIdx)).labels, name)
            == (if 0 <= keepIdx < Occurrences(labels, name) then 1 else 0)
    ensures |KeepPositions(labels, name, keepIdx)|
            == |labels| - Occurrences(labels, name) + (if 0 <= keepIdx < Occurrences(labels, name) then 1 else 0)
  {
    if labels != [] {
      var n := |labels| - 1;
      var init := labels[..n];
      KeepPositionsCount(init, name, keepIdx);
      var pi := KeepPositions(init, name, keepIdx);
      var p := KeepPositions(labels, name, keepIdx);
      var li := Project(Frame(init, []), pi).labels;
      var l := Project(Frame(labels, []), p).labels;
      if labels[n] != name || Occurrences(init, name) == keepIdx {
        assert p == pi + [n];
        assert l[..|l| - 1] == li;
      } else {
        assert p == pi;
        assert l == li;
      }
    }
  }

  /** As intended: a valid choice leaves exactly one column of the group and
      removes no other column; an out-of-range choice removes the group. */
  lemma KeepOccurrenceKeepsOne(f: Frame, name: string, keepIdx: int)
    ensures Occurrences(KeepOccurrence(f, name, keepIdx).labels, name)
            == (if 0 <= keepIdx < Occurrences(f.labels, name) then 1 else 0)
    ensures |KeepOccurrence(f, name, keepIdx).labels|
            == |f.labels| - Occurrences(f.labels, name) + (if 0 <= keepIdx < Occurrences(f.labels, name) then 1 else 0)
  {
    KeepPositionsCount(f.labels, name, keepIdx);
    assert KeepOccurrence(f, name, keepIdx).labels
           == Project(Frame(f.labels, []), KeepPositions(f.labels, name, keepIdx)).labels;
  }

  /** A group lists one position per occurrence of its name. */
  lemma {:induction false} PositionsCount(labels: seq<string>, name: string)
    ensures |Positions(labels, name)| == Occurrences(labels, name)
  {
    if labels != [] {
      PositionsCount(labels[..|labels| - 1], name);
    }
  }

  /** The position `p` of a group column is entry number "occurrences before p" of the group. */
  lemma {:induction false} PositionsAtOccurrence(labels: seq<string>, name: string, p: nat)
    requires p < |labels| && labels[p] == name
    ensures Occurrences(labels[..p], name) < |Positions(labels, name)|
    ensures Positions(labels, name)[Occurrences(labels[..p], name)] == p
  {
    var n := |labels| - 1;
    var init := labels[..n];
    PositionsCount(init, name);
    if p < n {
      assert init[..p] == labels[..p];
      PositionsAtOccurrence(init, name, p);
    } else {
      assert labels[..p] == init;
    }
  }

  /** A position is kept exactly when its column is not in the group or is its `keepIdx`-th member. */
  lemma {:induction false} KeepPositionsMember(labels: seq<string>, name: string, keepIdx: int, j: int)
    ensures j in KeepPositions(labels, name, keepIdx)
            <==> 0 <= j < |labels| && (labels[j] != name || Occurrences(labels[..j], name) == keepIdx)
  {
    if labels != [] {
      var n := |labels| - 1;
      KeepPositionsMember(labels[..n], name, keepIdx, j);
      if 0 <= j < n {
        assert labels[..n][..j] == labels[..j];
      }
    }
  }

  /** The kept positions are in ascending order, so the surviving columns keep their order. */
  lemma {:induction false} KeepPositionsAscending(labels: seq<string>, name: string, keepIdx: int)
    ensures forall a, b :: 0 <= a < b < |KeepPositions(labels, name, keepIdx)| ==>
              KeepPositions(labels, name, keepIdx)[a] < KeepPositions(labels, name, keepIdx)[b]
  {
    if labels != [] {
      KeepPositionsAscending(labels[..|labels| - 1], name, keepIdx);
    }
  }

  /** As intended, for a valid choice: the columns kept are every column outside
      the group and the group's `keepIdx`-th position, in their original order,
      each with its own label and cells. */
  lemma KeepOccurrenceKeepsChosen(f: Frame, name: string, keepIdx: int)
    requires 0 <= keepIdx < Occurrences(f.labels, name)
    ensures keepIdx < |Positions(f.labels, name)|
    ensures forall j :: j in KeepPositions(f.labels, name, keepIdx)
              <==> 0 <= j < |f.labels| && (f.labels[j] != name || j == Positions(f.labels, name)[keepIdx])
    ensures forall a, b :: 0 <= a < b < |KeepPositions(f.labels, name, keepIdx)| ==>
              KeepPositions(f.labels, name, keepIdx)[a] < KeepPositions(f.labels, name, keepIdx)[b]
    ensures forall k :: 0 <= k < |KeepPositions(f.labels, name, keepIdx)| ==>
              KeepOccurrence(f, name, keepIdx).labels[k] == f.labels[KeepPositions(f.labels, name, keepIdx)[k]]
    ensures forall i, k :: 0 <= i < |f.rows| && 0 <= k < |KeepPositions(f.labels, name, keepIdx)| ==>
              KeepOccurrence(f, name, keepIdx).rows[i][k] == CellAt(f.rows[i], KeepPositions(f.labels, name, keepIdx)[k])
  {
    var labels := f.labels;
    forall i, k | 0 <= i < |f.rows| && 0 <= k < |KeepPositions(labels, name, keepIdx)|
      ensures KeepOccurrence(f, name, keepIdx).rows[i][k] == CellAt(f.rows[i], KeepPositions(labels, name, keepIdx)[k])
    {
      ProjectCells(f, KeepPositions(labels, name, keepIdx), i, k);
    }
    PositionsCount(labels, name);
    var chosen := Positions(labels, name)[keepIdx];
    KeepPositionsAscending(labels, name, keepIdx);
    forall j: int
      ensures j in KeepPositions(labels, name, keepIdx)
              <==> 0 <= j < |labels| && (labels[j] != name || j == chosen)
    {
      KeepPositionsMember(labels, name, keepIdx, j);
      if 0 <= j < |labels| && labels[j] == name {
        PositionsAtOccurrence(labels, name, j);
        PositionsAscending(labels, name);
        var o := Occurrences(labels[..j], name);
        if o != keepIdx {
          assert Positions(labels, name)[o] != chosen;
        }
      }
    }
  }
}
