/** The analyzer's column profile: duplicate-name groups and the proposed
    renames of medication date columns. */
module ColumnProfile {

  // ---------------------------------------------------------------------------
  // Duplicate detection.
  // ---------------------------------------------------------------------------

  /** The positions holding `name`, ascending. */
  function Positions(cols: seq<string>, name: string): seq<nat> {
    if cols == [] then []
    else Positions(cols[..|cols| - 1], name) + (if cols[|cols| - 1] == name then [|cols| - 1] else [])
  }

  /** A position belongs to the group of exactly the name it holds, so the
      groups partition 0..n-1. */
  lemma {:induction false} PositionsMember(cols: seq<string>, name: string, i: int)
    ensures i in Positions(cols, name) <==> 0 <= i < |cols| && cols[i] == name
  {
    if cols != [] {
      PositionsMember(cols[..|cols| - 1], name, i);
    }
  }

  lemma {:induction false} PositionsBounded(cols: seq<string>, name: string)
    ensures forall k :: 0 <= k < |Positions(cols, name)| ==> Positions(cols, name)[k] < |cols|
  {
    if cols != [] {
      PositionsBounded(cols[..|cols| - 1], name);
    }
  }

  /** Each group lists its positions in ascending order. */
  lemma {:induction false} PositionsAscending(cols: seq<string>, name: string)
    ensures forall a, b :: 0 <= a < b < |Positions(cols, name)| ==>
              Positions(cols, name)[a] < Positions(cols, name)[b]
  {
    if cols != [] {
      var init := cols[..|cols| - 1];
      PositionsAscending(init, name);
      PositionsBounded(init, name);
    }
  }

  /** The duplicate report: every name at two or more positions, with those positions. */
  ghost predicate DuplicateReport(cols: seq<string>, dups: map<string, seq<nat>>) {
    (forall n :: n in dups <==> |Positions(cols, n)| >= 2)
    && (forall n :: n in dups ==> dups[n] == Positions(cols, n))
  }

  /** The `setdefault(name, []).append(i)` loop followed by the pass keeping
      the groups with more than one position; `order` is the dict's key order. */
  method DetectDuplicates(cols: seq<string>)
    returns (nameToIndices: map<string, seq<nat>>, order: seq<string>, dups: map<string, seq<nat>>)
    ensures forall n :: n in nameToIndices <==> n in cols
    ensures forall n :: n in nameToIndices ==> nameToIndices[n] == Positions(cols, n)
    ensures forall n :: n in order <==> n in cols
    ensures DuplicateReport(cols, dups)
  {
    nameToIndices := map[];
    order := [];
    var i := 0;
    while i < |cols|
      invariant 0 <= i <= |cols|
      invariant forall n :: n in nameToIndices <==> n in cols[..i]
      invariant forall n :: n in nameToIndices ==> nameToIndices[n] == Positions(cols[..i], n)
      invariant forall n :: n in order <==> n in cols[..i]
    {
      assert cols[..i + 1][..i] == cols[..i];
      var name := cols[i];
      if name !in nameToIndices {
        PositionsEmpty(cols[..i], name);
        nameToIndices := nameToIndices[name := []];
        order := order + [name];
      }
      nameToIndices := nameToIndices[name := nameToIndices[name] + [i]];
      i := i + 1;
    }
    assert cols[..i] == cols;
    dups := map[];
    var k := 0;
    while k < |order|
      invariant 0 <= k <= |order|
      invariant forall n :: n in dups <==> n in order[..k] && |nameToIndices[n]| > 1
      invariant forall n :: n in dups ==> dups[n] == nameToIndices[n]
    {
      var name := order[k];
      if |nameToIndices[name]| > 1 {
        dups := dups[name := nameToIndices[name]];
      }
      k := k + 1;
    }
    assert order[..k] == order;
    forall n | n !in cols
      ensures |Positions(cols, n)| < 2
    {
      PositionsEmpty(cols, n);
    }
  }

  /** A name absent from the list has no positions. */
  lemma PositionsEmpty(cols: seq<string>, name: string)
    requires name !in cols
    ensures Positions(cols, name) == []
  {
    if Positions(cols, name) != [] {
      PositionsMember(cols, name, Positions(cols, name)[0]);
    }
  }

  // ---------------------------------------------------------------------------
  // Rename proposals for medication date columns.
  // ---------------------------------------------------------------------------

  /** The case-sensitive date markers that are prefixed with their left neighbour's name. */
  const DateMarkers: set<string> := {"Start_Date", "End_Date", "Start_DateEng", "End_DateEng"}

  /** The proposals after scanning `cols` left to right; a later occurrence of a
      marker overwrites an earlier one. */
  function Proposals(cols: seq<string>): map<string, string> {
    if cols == [] then map[]
    else
      var i := |cols| - 1;
      var prev := Proposals(cols[..i]);
      if cols[i] in DateMarkers && i > 0 then prev[cols[i] := cols[i - 1] + "_" + cols[i]] else prev
  }

  /** The rename loop of the analyzer. */
  method ProposeRenames(cols: seq<string>) returns (renames: map<string, string>)
    ensures renames == Proposals(cols)
  {
    renames := map[];
    var i := 0;
    while i < |cols|
      invariant 0 <= i <= |cols|
      invariant renames == Proposals(cols[..i])
    {
      assert cols[..i + 1][..i] == cols[..i];
      var col := cols[i];
      if col in DateMarkers {
        if i > 0 {
          renames := renames[col := cols[i - 1] + "_" + col];
        }
      }
      i := i + 1;
    }
    assert cols[..i] == cols;
  }

  /** Only markers are proposed, and a marker is proposed exactly when it occurs past position 0. */
  lemma {:induction false} ProposalKeys(cols: seq<string>, m: string)
    ensures m in Proposals(cols) ==> m in DateMarkers
    ensures m in Proposals(cols) <==> m in DateMarkers && exists i :: 0 < i < |cols| && cols[i] == m
  {
    if cols != [] {
      var n := |cols| - 1;
      ProposalKeys(cols[..n], m);
      if exists i :: 0 < i < n && cols[..n][i] == m {
        var i :| 0 < i < n && cols[..n][i] == m;
        assert cols[i] == m;
      }
      if exists i :: 0 < i < |cols| && cols[i] == m {
        var i :| 0 < i < |cols| && cols[i] == m;
        if i < n {
          assert cols[..n][i] == m;
        }
      }
    }
  }

  /** The proposal for a marker comes from its last occurrence: left neighbour, "_", marker. */
  lemma {:induction false} ProposalFromLastOccurrence(cols: seq<string>, i: nat)
    requires 0 < i < |cols| && cols[i] in DateMarkers
    requires forall j :: i < j < |cols| ==> cols[j] != cols[i]
    ensures cols[i] in Proposals(cols)
    ensures Proposals(cols)[cols[i]] == cols[i - 1] + "_" + cols[i]
  {
    var n := |cols| - 1;
    if i < n {
      ProposalFromLastOccurrence(cols[..n], i);
    }
  }

  /** A marker standing only at position 0 gets no proposal. */
  lemma MarkerAtStartNotProposed(cols: seq<string>)
    requires |cols| > 0 && cols[0] in DateMarkers
    requires forall j :: 0 < j < |cols| ==> cols[j] != cols[0]
    ensures cols[0] !in Proposals(cols)
  {
    ProposalKeys(cols, cols[0]);
  }
}
