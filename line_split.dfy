/** The hand-rolled tokenizer of the fallback reader: split a line on commas
    that are outside single quotes. A single quote only toggles the state;
    there is no escaping of doubled quotes. */
module LineSplit {
  import opened Wrappers
  import opened Text

  /** The tokenizer's variables between two characters: finished parts,
      the current buffer, and whether a single quote is open. */
  datatype ScanState = ScanState(parts: seq<string>, cur: string, inQuote: bool)

  function Step(s: ScanState, ch: char): ScanState {
    if ch == '\'' then s.(inQuote := !s.inQuote, cur := s.cur + [ch])
    else if ch == ',' && !s.inQuote then ScanState(s.parts + [Trim(s.cur)], "", s.inQuote)
    else s.(cur := s.cur + [ch])
  }

  /** The state after the first `n` characters of `line`. */
  function ScanPrefix(line: string, n: nat): ScanState
    requires n <= |line|
  {
    if n == 0 then ScanState([], "", false) else Step(ScanPrefix(line, n - 1), line[n - 1])
  }

  /** The trimmed parts, before the per-field cleaning. */
  function RawParts(line: string): seq<string> {
    var s := ScanPrefix(line, |line|);
    s.parts + [Trim(s.cur)]
  }

  /** A trimmed field loses one enclosing pair of single quotes, and is trimmed again. */
  function Unquote(t: string): string {
    if |t| >= 2 && t[0] == '\'' && t[|t| - 1] == '\'' then Trim(t[1..|t| - 1]) else t
  }

  /** The per-field cleaning: trim, unquote, and report an empty field as missing. */
  function CleanField(p: string): (r: Option<string>)
    ensures r.Some? ==> r.value != "" && IsTrimmed(r.value)
  {
    var u := Unquote(Trim(p));
    if u == "" then None else Some(u)
  }

  /** Every part cleaned, in order. */
  function CleanAll(parts: seq<string>): (r: seq<Option<string>>)
    ensures |r| == |parts|
    ensures forall k :: 0 <= k < |parts| ==> r[k] == CleanField(parts[k])
  {
    seq(|parts|, k requires 0 <= k < |parts| => CleanField(parts[k]))
  }

  /** The fields the tokenizer returns for `line`. */
  function Fields(line: string): seq<Option<string>> {
    CleanAll(RawParts(line))
  }

  /** Commas among the first `n` characters that are preceded by an even number of single quotes. */
  function CommasOutsideQuotes(line: string, n: nat): nat
    requires n <= |line|
  {
    if n == 0 then 0
    else CommasOutsideQuotes(line, n - 1)
         + (if line[n - 1] == ',' && Count(line[..n - 1], '\'') % 2 == 0 then 1 else 0)
  }

  lemma {:induction false} ScanCounts(line: string, n: nat)
    requires n <= |line|
    ensures ScanPrefix(line, n).inQuote <==> Count(line[..n], '\'') % 2 == 1
    ensures |ScanPrefix(line, n).parts| == CommasOutsideQuotes(line, n)
  {
    if n > 0 {
      ScanCounts(line, n - 1);
      CountSnoc(line, n - 1, '\'');
    }
  }

  /** The tokenizer as the source runs it: a character loop toggling the quote
      state and collecting parts, then a cleaning pass. */
  method SplitCommasNotInSingleQuotes(line: string) returns (fields: seq<Option<string>>)
    ensures fields == Fields(line)
    ensures |fields| == 1 + CommasOutsideQuotes(line, |line|)
    ensures forall k :: 0 <= k < |fields| && fields[k].Some? ==>
              fields[k].value != "" && IsTrimmed(fields[k].value)
  {
    var parts := ScanLine(line);
    fields := CleanParts(parts);
    FieldCount(line);
  }

  /** The cleaning pass over the trimmed parts. */
  method CleanParts(parts: seq<string>) returns (fields: seq<Option<string>>)
    ensures fields == CleanAll(parts)
  {
    fields := [];
    var k := 0;
    while k < |parts|
      invariant 0 <= k <= |parts|
      invariant fields == CleanAll(parts[..k])
    {
      assert parts[..k + 1][..k] == parts[..k];
      fields := fields + [CleanField(parts[k])];
      k := k + 1;
    }
    assert parts[..k] == parts;
  }

  /** One field per comma outside quotes, plus one. */
  lemma FieldCount(line: string)
    ensures |Fields(line)| == 1 + CommasOutsideQuotes(line, |line|)
  {
    ScanCounts(line, |line|);
  }

  /** The character loop of the tokenizer. */
  method ScanLine(line: string) returns (parts: seq<string>)
    ensures parts == RawParts(line)
  {
    parts := [];
    var cur: string := "";
    var inQuote := false;
    var i := 0;
    while i < |line|
      invariant 0 <= i <= |line|
      invariant ScanState(parts, cur, inQuote) == ScanPrefix(line, i)
    {
      var ch := line[i];
      if ch == '\'' {
        inQuote := !inQuote;
        cur := cur + [ch];
      } else if ch == ',' && !inQuote {
        parts := parts + [Trim(cur)];
        cur := "";
      } else {
        cur := cur + [ch];
      }
      i := i + 1;
    }
    parts := parts + [Trim(cur)];
  }

  /** A line without single quotes splits at every comma. */
  lemma NoQuotesSplitsEveryComma(line: string)
    requires '\'' !in line
    ensures |Fields(line)| == 1 + Count(line, ',')
  {
    ScanCounts(line, |line|);
    CommasWithoutQuotes(line, |line|);
    assert line[..|line|] == line;
  }

  lemma {:induction false} CommasWithoutQuotes(line: string, n: nat)
    requires n <= |line|
    requires '\'' !in line
    ensures CommasOutsideQuotes(line, n) == Count(line[..n], ',')
  {
    if n > 0 {
      CommasWithoutQuotes(line, n - 1);
      CountSnoc(line, n - 1, ',');
      CountZero(line[..n - 1], '\'');
    }
  }

  /** A comma inside single quotes does not split: `'a,b',c` has two fields. */
  lemma QuotedCommaKept(line: string)
    requires line == "'a,b',c"
    ensures |Fields(line)| == 2
    ensures Fields(line)[0] == Some("a,b")
  {
    ScanQuotedLine(line);
    CleanQuotedParts(RawParts(line));
  }

  lemma CleanQuotedParts(parts: seq<string>)
    requires |parts| == 2 && parts[0] == "'a,b'"
    ensures |CleanAll(parts)| == 2 && CleanAll(parts)[0] == Some("a,b")
  {
    var x := "a,b";
    assert parts[0] == "'" + x + "'";
    UnquoteField(x);
    TrimOfTrimmed(x);
    assert CleanAll(parts)[0] == CleanField(parts[0]);
  }

  lemma ScanQuotedLine(line: string)
    requires line == "'a,b',c"
    ensures RawParts(line) == ["'a,b'", Trim("c")]
  {
    ScanQuotedField(line);
    TrimOfTrimmed("'a,b'");
    assert ScanPrefix(line, 6) == ScanState(["'a,b'"], "", false);
    assert ScanPrefix(line, 7) == ScanState(["'a,b'"], "c", false);
  }

  lemma ScanQuotedField(line: string)
    requires line == "'a,b',c"
    ensures ScanPrefix(line, 5) == ScanState([], "'a,b'", false)
  {
    ScanQuoteOpen(line);
    assert ScanPrefix(line, 4) == ScanState([], "'a,b", true);
  }

  lemma ScanQuoteOpen(line: string)
    requires line == "'a,b',c"
    ensures ScanPrefix(line, 3) == ScanState([], "'a,", true)
  {
    assert ScanPrefix(line, 1) == ScanState([], "'", true);
    assert ScanPrefix(line, 2) == ScanState([], "'a", true);
  }

  /** A field in one pair of single quotes loses the pair and the blanks just
      inside it; nothing but blanks inside makes it missing. */
  lemma UnquoteField(x: string)
    ensures CleanField("'" + x + "'") == (if Trim(x) == "" then None else Some(Trim(x)))
  {
    var t := "'" + x + "'";
    TrimOfTrimmed(t);
    assert t[1..|t| - 1] == x;
  }

  /** A lone single quote is not a pair: the field keeps it. */
  lemma LoneQuoteKept()
    ensures CleanField("'") == Some("'")
  {
    TrimOfTrimmed("'");
  }
}
