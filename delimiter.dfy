/** The delimiter sniffer of the CSV analyzer: tally `,` `;` and tab over
    the first lines of the file and accept the most frequent one only when
    it clearly dominates. */
module DelimiterSniffer {
  import opened Wrappers
  import opened Text

  /** At most this many lines of the file are sampled. */
  const SampleSize: nat := 10

  /** The three tallies, in the order the source's dictionary holds them. */
  datatype Tally = Tally(comma: nat, semicolon: nat, tab: nat)

  /** Occurrences of `c` over all `lines`. */
  function CountLines(lines: seq<string>, c: char): nat {
    if lines == [] then 0
    else CountLines(lines[..|lines| - 1], c) + Count(lines[|lines| - 1], c)
  }

  function TallyOf(lines: seq<string>): Tally {
    Tally(CountLines(lines, ','), CountLines(lines, ';'), CountLines(lines, '\t'))
  }

  function Max(a: nat, b: nat): nat { if a >= b then a else b }

  /** `max(1, int(m * 1.5))`; `int` truncates, and for a natural m that is `(3 * m) / 2`. */
  function Threshold(m: nat): nat { Max(1, (3 * m) / 2) }

  /** Python's `max` over the dictionary returns the first maximal entry. */
  function MostCommon(t: Tally): (char, nat, nat) {
    if t.comma >= t.semicolon && t.comma >= t.tab then (',', t.comma, Max(t.semicolon, t.tab))
    else if t.semicolon >= t.tab then (';', t.semicolon, Max(t.comma, t.tab))
    else ('\t', t.tab, Max(t.comma, t.semicolon))
  }

  function Choose(t: Tally): Option<char> {
    var (d, count, others) := MostCommon(t);
    if count == 0 then None
    else if count >= Threshold(others) then Some(d)
    else None
  }

  /** The lines the sniffer looks at. */
  function Sampled(lines: seq<string>): seq<string> {
    if |lines| <= SampleSize then lines else lines[..SampleSize]
  }

  /** What the sniffer answers for a file: `None` models an unreadable file
      (the source catches the exception and answers None). */
  function Sniff(file: Option<seq<string>>): Option<char> {
    match file
    case None => None
    case Some(lines) => if lines == [] then None else Choose(TallyOf(Sampled(lines)))
  }

  /** The sniffer as the source runs it: one pass over the sampled lines,
      three running counters. */
  method DetectDelimiter(file: Option<seq<string>>) returns (d: Option<char>)
    ensures d == Sniff(file)
    ensures d.Some? ==> d.value in {',', ';', '\t'}
  {
    if file.None? || file.value == [] {
      return None;
    }
    var lines := Sampled(file.value);
    var comma, semicolon, tab := 0, 0, 0;
    var i := 0;
    while i < |lines|
      invariant 0 <= i <= |lines|
      invariant comma == CountLines(lines[..i], ',')
      invariant semicolon == CountLines(lines[..i], ';')
      invariant tab == CountLines(lines[..i], '\t')
    {
      assert lines[..i + 1][..i] == lines[..i];
      comma := comma + Count(lines[i], ',');
      semicolon := semicolon + Count(lines[i], ';');
      tab := tab + Count(lines[i], '\t');
      i := i + 1;
    }
    assert lines[..i] == lines;
    d := Choose(Tally(comma, semicolon, tab));
  }

  // ---------------------------------------------------------------------
  // Properties

  lemma {:induction false} CountLinesZero(lines: seq<string>, c: char)
    ensures CountLines(lines, c) == 0 <==> forall k :: 0 <= k < |lines| ==> c !in lines[k]
  {
    if lines != [] {
      var init := lines[..|lines| - 1];
      CountLinesZero(init, c);
      CountZero(lines[|lines| - 1], c);
      assert forall k :: 0 <= k < |init| ==> init[k] == lines[k];
    }
  }

  /** No sampled line holds a candidate: the sniffer gives up. */
  lemma NoCandidateGivesNone(lines: seq<string>)
    requires forall k :: 0 <= k < |Sampled(lines)| ==>
      ',' !in Sampled(lines)[k] && ';' !in Sampled(lines)[k] && '\t' !in Sampled(lines)[k]
    ensures Sniff(Some(lines)) == None
  {
    CountLinesZero(Sampled(lines), ',');
    CountLinesZero(Sampled(lines), ';');
    CountLinesZero(Sampled(lines), '\t');
  }

  /** Lines after the tenth never influence the answer. */
  lemma OnlyTenLinesCount(lines: seq<string>, more: seq<string>)
    requires |lines| >= SampleSize
    ensures Sniff(Some(lines + more)) == Sniff(Some(lines))
  {
    assert (lines + more)[..SampleSize] == lines[..SampleSize];
    assert Sampled(lines + more) == Sampled(lines);
  }

  /** An accepted delimiter occurs at least once, is first-maximal in the order
      `,` `;` tab, and reaches one and a half times every other count (truncated). */
  lemma ChosenDominates(t: Tally, d: char)
    requires Choose(t) == Some(d)
    ensures d in {',', ';', '\t'}
    ensures d == ',' ==> (t.comma >= 1 && t.comma >= t.semicolon && t.comma >= t.tab &&
                          2 * t.comma + 1 >= 3 * t.semicolon && 2 * t.comma + 1 >= 3 * t.tab)
    ensures d == ';' ==> (t.semicolon >= 1 && t.semicolon > t.comma && t.semicolon >= t.tab &&
                          2 * t.semicolon + 1 >= 3 * t.comma && 2 * t.semicolon + 1 >= 3 * t.tab)
    ensures d == '\t' ==> (t.tab >= 1 && t.tab > t.comma && t.tab > t.semicolon &&
                           2 * t.tab + 1 >= 3 * t.comma && 2 * t.tab + 1 >= 3 * t.semicolon)
  {
  }

  /** Conversely, a candidate that is first-maximal and reaches the threshold is accepted. */
  lemma DominantIsChosen(t: Tally)
    ensures t.comma >= t.semicolon && t.comma >= t.tab && t.comma >= Threshold(Max(t.semicolon, t.tab))
            ==> Choose(t) == Some(',')
    ensures t.semicolon > t.comma && t.semicolon >= t.tab && t.semicolon >= Threshold(Max(t.comma, t.tab))
            ==> Choose(t) == Some(';')
    ensures t.tab > t.comma && t.tab > t.semicolon && t.tab >= Threshold(Max(t.comma, t.semicolon))
            ==> Choose(t) == Some('\t')
  {
  }

  /** Worked cases: 3 commas against 2 semicolons is accepted (int(2 * 1.5) == 3),
      a 5/5 tie is not, a 1/1 tie is (the threshold never drops below 1),
      4 semicolons against 1 comma gives `;`. */
  lemma WorkedCases()
    ensures Choose(Tally(3, 2, 0)) == Some(',')
    ensures Choose(Tally(5, 5, 0)) == None
    ensures Choose(Tally(1, 1, 0)) == Some(',')
    ensures Choose(Tally(1, 4, 0)) == Some(';')
    ensures Choose(Tally(0, 0, 0)) == None
  {
  }
}
