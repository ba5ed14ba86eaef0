/** The two CSV readers of the import phase: the multi-strategy pandas reader
    and the hand-rolled reader it falls back to. Pandas itself is not modelled:
    each `read_csv` call is an outcome given as input (None when it raises). */
module CsvReaders {
  import opened Wrappers
  import opened Text
  import opened Frames
  import opened LineSplit

  // ---------------------------------------------------------------------------
  // Fallback reader: `_read_csv_with_fallback_to_line_split`.
  // ---------------------------------------------------------------------------

  /** `str(h)` for a header cell of the fallback reader: a missing one is the label "None". */
  function HeaderLabel(h: Option<string>): string {
    h.GetOr("None")
  }

  function HeaderLabels(header: seq<Option<string>>): (r: seq<string>)
    ensures |r| == |header|
  {
    seq(|header|, j requires 0 <= j < |header| => HeaderLabel(header[j]))
  }

  /** A data line is padded with None or truncated to the header width. */
  function Fit(parts: seq<Option<string>>, width: nat): (r: seq<Option<string>>)
    ensures |r| == width
    ensures forall j :: 0 <= j < width ==> r[j] == (if j < |parts| then parts[j] else None)
  {
    if |parts| < width then parts + seq(width - |parts|, _ => None)
    else parts[..width]
  }

  /** The last position holding `h` in `header` (the dict built per row keeps the
      value of the last column with a given key). */
  function LastIndexOf(header: seq<Option<string>>, h: Option<string>): (k: nat)
    requires h in header
    ensures k < |header| && header[k] == h
    ensures forall j :: k < j < |header| ==> header[j] != h
  {
    if header[|header| - 1] == h then |header| - 1 else LastIndexOf(header[..|header| - 1], h)
  }

  /** The row `pd.DataFrame(rows, columns=header)` builds from one fitted line:
      each column takes the value stored under its label. */
  function RowOf(header: seq<Option<string>>, fitted: seq<Option<string>>): (r: seq<Cell>)
    requires |fitted| == |header|
    ensures |r| == |header|
  {
    seq(|header|, j requires 0 <= j < |header| => fitted[LastIndexOf(header, header[j])])
  }

  /** The data rows built from the lines after the header; blank lines are skipped. */
  function DataRows(header: seq<Option<string>>, lines: seq<string>): (r: seq<seq<Cell>>)
    ensures forall i :: 0 <= i < |r| ==> |r[i]| == |header|
  {
    if lines == [] then []
    else
      var prev := DataRows(header, lines[..|lines| - 1]);
      var ln := lines[|lines| - 1];
      if IsBlank(ln) then prev
      else prev + [LineRow(header, ln)]
  }

  /** The row built from one non-blank data line. */
  function LineRow(header: seq<Option<string>>, ln: string): (r: seq<Cell>)
    ensures |r| == |header|
  {
    RowOf(header, Fit(Fields(ln), |header|))
  }

  /** The frame the fallback reader returns for a file it could open. */
  function FallbackFrame(lines: seq<string>): (r: Frame)
    ensures Rectangular(r)
  {
    if lines == [] then EmptyFrame
    else
      var header := Fields(lines[0]);
      Frame(HeaderLabels(header), DataRows(header, lines[1..]))
  }

  /** The fallback reader: `file` is the file's lines, None when it cannot be
      opened; then the reader defers to a plain `pd.read_csv`, whose outcome is
      `plainRead`. The delimiter argument of the source is accepted and unused. */
  method ReadWithFallbackToLineSplit(file: Option<seq<string>>, plainRead: Option<Frame>)
    returns (r: Option<Frame>)
    ensures file.None? ==> r == plainRead
    ensures file.Some? ==> r == Some(FallbackFrame(file.value))
  {
    if file.None? {
      return plainRead;
    }
    var lines := file.value;
    if lines == [] {
      return Some(EmptyFrame);
    }
    var header := SplitCommasNotInSingleQuotes(lines[0]);
    var rows: seq<seq<Cell>> := [];
    var i := 1;
    while i < |lines|
      invariant 1 <= i <= |lines|
      invariant rows == DataRows(header, lines[1..i])
    {
      var ln := lines[i];
      DataRowsStep(header, lines, i);
      if !IsBlank(ln) {
        var parts := SplitCommasNotInSingleQuotes(ln);
        var row := RowOf(header, Fit(parts, |header|));
        assert row == LineRow(header, ln);
        rows := rows + [row];
      }
      i := i + 1;
    }
    assert lines[1..i] == lines[1..];
    r := Some(Frame(HeaderLabels(header), rows));
  }

  lemma DataRowsStep(header: seq<Option<string>>, lines: seq<string>, i: nat)
    requires 1 <= i < |lines|
    ensures DataRows(header, lines[1..i + 1])
            == if IsBlank(lines[i]) then DataRows(header, lines[1..i])
               else DataRows(header, lines[1..i]) + [LineRow(header, lines[i])]
  {
    assert lines[1..i + 1][..i - 1] == lines[1..i];
  }

  /** One row per non-blank line after the header. */
  function NonBlankCount(lines: seq<string>): nat {
    if lines == [] then 0
    else NonBlankCount(lines[..|lines| - 1]) + (if IsBlank(lines[|lines| - 1]) then 0 else 1)
  }

  lemma {:induction false} DataRowsCount(header: seq<Option<string>>, lines: seq<string>)
    ensures |DataRows(header, lines)| == NonBlankCount(lines)
  {
    if lines != [] {
      DataRowsCount(header, lines[..|lines| - 1]);
    }
  }

  /** An empty file gives the empty frame; otherwise the header is the first line's
      fields and there is one header-wide row per non-blank later line. */
  lemma FallbackShape(lines: seq<string>)
    ensures lines == [] ==> FallbackFrame(lines) == EmptyFrame
    ensures lines != [] ==>
              |FallbackFrame(lines).labels| == |Fields(lines[0])|
              && |FallbackFrame(lines).rows| == NonBlankCount(lines[1..])
  {
    if lines != [] {
      DataRowsCount(Fields(lines[0]), lines[1..]);
    }
  }

  /** When the header labels are distinct, column j of a row is field j of its
      line, or None when the line is shorter. */
  lemma RowOfDistinctHeader(header: seq<Option<string>>, parts: seq<Option<string>>, j: nat)
    requires forall a, b :: 0 <= a < b < |header| ==> header[a] != header[b]
    requires j < |header|
    ensures RowOf(header, Fit(parts, |header|))[j] == (if j < |parts| then parts[j] else None)
  {
    var k := LastIndexOf(header, header[j]);
    assert k == j;
  }

  /** With a repeated header label every column carrying it holds the value of its last occurrence. */
  lemma RowOfRepeatedLabel(header: seq<Option<string>>, fitted: seq<Option<string>>, a: nat, b: nat)
    requires |fitted| == |header|
    requires a < b < |header| && header[a] == header[b]
    ensures RowOf(header, fitted)[a] == RowOf(header, fitted)[b]
  {
  }

  // ---------------------------------------------------------------------------
  // Multi-strategy reader: `_robust_read_csv`.
  // ---------------------------------------------------------------------------

  /** The number of columns the header line promises: delimiter count plus one,
      or None when the first line is blank or the file cannot be read. */
  function ExpectedColumns(firstLine: Option<string>, sep: Option<char>): Option<nat> {
    var headerLine := if firstLine.Some? then Trim(firstLine.value) else "";
    if headerLine == "" then None else Some(Count(headerLine, sep.GetOr(',')) + 1)
  }

  /** A strategy's frame is accepted when no width is expected or its width matches. */
  predicate Accepts(expected: Option<nat>, f: Frame) {
    expected.None? || |f.labels| == expected.value
  }

  /** The first strategy outcome that read without error and is accepted. */
  function FirstAccepted(attempts: seq<Option<Frame>>, expected: Option<nat>): (r: Option<Frame>)
    ensures r.Some? ==> Accepts(expected, r.value) && Some(r.value) in attempts
  {
    if attempts == [] then None
    else if attempts[0].Some? && Accepts(expected, attempts[0].value) then attempts[0]
    else FirstAccepted(attempts[1..], expected)
  }

  /** The reader's outcome: the first accepted strategy, else the lenient re-read,
      else the plain default read, which may itself raise. */
  function RobustResult(expected: Option<nat>, attempts: seq<Option<Frame>>,
                        lenient: Option<Frame>, lastResort: Option<Frame>): Option<Frame>
  {
    var hit := FirstAccepted(attempts, expected);
    if hit.Some? then hit else if lenient.Some? then lenient else lastResort
  }

  /** `_robust_read_csv`: `attempts` are the outcomes of the four ordered
      `read_csv` strategies (C engine with double quotes, C engine with single
      quotes, Python engine with single quotes, Python engine without quoting). */
  method RobustReadCsv(firstLine: Option<string>, sep: Option<char>, attempts: seq<Option<Frame>>,
                       lenient: Option<Frame>, lastResort: Option<Frame>)
    returns (r: Option<Frame>)
    ensures r == RobustResult(ExpectedColumns(firstLine, sep), attempts, lenient, lastResort)
  {
    var expected := ExpectedColumns(firstLine, sep);
    var i := 0;
    while i < |attempts|
      invariant 0 <= i <= |attempts|
      invariant FirstAccepted(attempts, expected) == FirstAccepted(attempts[i..], expected)
    {
      assert attempts[i..][1..] == attempts[i + 1..];
      var df := attempts[i];
      if df.Some? && Accepts(expected, df.value) {
        return df;
      }
      i := i + 1;
    }
    if lenient.Some? {
      return lenient;
    }
    return lastResort;
  }

  /** The strategy chosen is the first that is accepted: every earlier one failed or had the wrong width. */
  lemma {:induction false} FirstAcceptedIsFirst(attempts: seq<Option<Frame>>, expected: Option<nat>, k: nat)
    requires k < |attempts| && attempts[k].Some? && Accepts(expected, attempts[k].value)
    requires forall i :: 0 <= i < k ==> attempts[i].None? || !Accepts(expected, attempts[i].value)
    ensures FirstAccepted(attempts, expected) == attempts[k]
  {
    if k > 0 {
      FirstAcceptedIsFirst(attempts[1..], expected, k - 1);
    }
  }

  /** When no strategy is accepted the lenient re-read decides, whatever its width. */
  lemma {:induction false} NoneAcceptedFallsBack(attempts: seq<Option<Frame>>, expected: Option<nat>)
    requires forall i :: 0 <= i < |attempts| ==> attempts[i].None? || !Accepts(expected, attempts[i].value)
    ensures FirstAccepted(attempts, expected) == None
  {
    if attempts != [] {
      NoneAcceptedFallsBack(attempts[1..], expected);
    }
  }

  /** With a blank header line every successful strategy is accepted. */
  lemma BlankHeaderAcceptsAny(firstLine: Option<string>, sep: Option<char>, f: Frame)
    requires firstLine.None? || IsBlank(firstLine.value)
    ensures Accepts(ExpectedColumns(firstLine, sep), f)
  {
    if firstLine.Some? {
      TrimEmptyIffBlank(firstLine.value);
    }
  }
}
