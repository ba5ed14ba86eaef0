/** The analyzer's choice between reading a sheet with its first row as the
    header and reading it with the first row dropped and the second promoted. */
module HeaderMode {
  import opened Wrappers
  import opened Frames

  datatype Mode = FirstRow | SkipFirstRow

  datatype Candidate = Candidate(mode: Mode, frame: Frame)

  /** A framing is a candidate only when it holds some non-null cell; the
      first-row framing is listed first. */
  function Candidates(first: Frame, skip: Frame): seq<Candidate> {
    (if HasMeaningfulData(first) then [Candidate(FirstRow, first)] else [])
    + (if HasMeaningfulData(skip) then [Candidate(SkipFirstRow, skip)] else [])
  }

  /** Python's `max` with a key: the first candidate of greatest non-null count. */
  function MaxByNonNull(cs: seq<Candidate>): (r: Candidate)
    requires cs != []
    ensures r in cs
    ensures forall c :: c in cs ==> NonNull(c.frame.rows) <= NonNull(r.frame.rows)
  {
    if |cs| == 1 then cs[0]
    else
      var best := MaxByNonNull(cs[1..]);
      if NonNull(best.frame.rows) > NonNull(cs[0].frame.rows) then best else cs[0]
  }

  /** The chosen framing: the best candidate, or the first-row framing when there is none. */
  function ChooseFraming(first: Frame, skip: Frame): (r: Candidate) {
    var cs := Candidates(first, skip);
    if cs == [] then Candidate(FirstRow, first) else MaxByNonNull(cs)
  }

  /** The reported column list: the chosen frame's labels when it has data, else empty. */
  function Columns(chosen: Frame): (cols: seq<string>)
    ensures cols != [] ==> HasMeaningfulData(chosen) && cols == chosen.labels
  {
    if HasMeaningfulData(chosen) then chosen.labels else []
  }

  /** The skip-first-row framing wins only when it has data and either the
      first-row framing has none or it has strictly more non-null cells; a tie
      keeps the first row. */
  lemma ChooseCharacterized(first: Frame, skip: Frame)
    ensures ChooseFraming(first, skip).mode == SkipFirstRow <==>
              HasMeaningfulData(skip)
              && (!HasMeaningfulData(first) || NonNull(skip.rows) > NonNull(first.rows))
    ensures ChooseFraming(first, skip).frame == (if ChooseFraming(first, skip).mode == SkipFirstRow then skip else first)
  {
    var cs := Candidates(first, skip);
    if HasMeaningfulData(first) && HasMeaningfulData(skip) {
      assert cs == [Candidate(FirstRow, first), Candidate(SkipFirstRow, skip)];
      assert cs[1..] == [Candidate(SkipFirstRow, skip)];
    }
  }

  /** A frame with no data never yields columns; so when neither framing has data the list is empty. */
  lemma NoDataNoColumns(first: Frame, skip: Frame)
    requires !HasMeaningfulData(first) && !HasMeaningfulData(skip)
    ensures ChooseFraming(first, skip) == Candidate(FirstRow, first)
    ensures Columns(ChooseFraming(first, skip).frame) == []
  {
  }

  /** The analyzer's framings: a failed first-row read counts as the empty
      frame; the skip framing drops row 0 of the header-less read and promotes
      the next row. */
  function AnalyzerFramings(firstRead: Option<Frame>, headerless: Option<Frame>): (r: (Frame, Frame))
  {
    (if firstRead.Some? then firstRead.value else EmptyFrame,
     if headerless.Some? then PromoteAfterSkip(headerless.value) else EmptyFrame)
  }
}
