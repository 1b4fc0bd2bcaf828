/** The result comparator: it parses the client's result lines ("Query <n>:
    <r1>, <r2>, ...") into per-query result lists and compares them, as sets,
    with the expected results. */
module CompareOutputs {
  import opened Wrappers
  import opened Text

  // ----- Splitting one line's results -----

  /** Whether the scanner is inside `[...]` after reading `c`. */
  function BracketNext(inBrackets: bool, c: char): bool
  {
    if c == '[' then true else if c == ']' then false else inBrackets
  }

  /** A comma splits only outside brackets. */
  function OutsideBrackets(inBrackets: bool): bool
  {
    !inBrackets
  }

  /** The raw pieces between the commas outside brackets; brackets are kept. */
  function Pieces(t: string): (r: seq<string>)
    ensures r != []
  {
    Segments(t, false, ',', OutsideBrackets, BracketNext)
  }

  function TrimAll(segs: seq<string>): (r: seq<string>)
    ensures |r| == |segs| && forall k :: 0 <= k < |segs| ==> r[k] == TrimSpace(PythonWhitespace, segs[k])
  {
    seq(|segs|, k requires 0 <= k < |segs| => TrimSpace(PythonWhitespace, segs[k]))
  }

  lemma TrimAllSnoc(segs: seq<string>, x: string)
    ensures TrimAll(segs + [x]) == TrimAll(segs) + [TrimSpace(PythonWhitespace, x)]
  {
    assert (segs + [x])[..|segs|] == segs;
  }

  /** The results listed after "Query <n>: ": the stripped text is cut at the
      commas outside brackets and every piece is stripped; interior empty
      pieces are kept but an empty remainder after the last comma is not. */
  function ResultsOf(text: string): seq<string>
  {
    var segs := Pieces(TrimSpace(PythonWhitespace, text));
    var last := segs[|segs| - 1];
    TrimAll(segs[..|segs| - 1]) + (if last != "" then [TrimSpace(PythonWhitespace, last)] else [])
  }

  /** The character loop that splits one line's results. */
  method SplitResults(text: string) returns (results: seq<string>)
    ensures results == ResultsOf(text)
  {
    var t := TrimSpace(PythonWhitespace, text);
    ghost var done: seq<string> := [];
    results := [];
    var current := "";
    var inBrackets := false;
    var i := 0;
    ScanFromStart(t, false, ',', OutsideBrackets, BracketNext);
    while i < |t|
      invariant 0 <= i <= |t|
      invariant Pieces(t) == Scan(t, i, inBrackets, current, done, ',', OutsideBrackets, BracketNext)
      invariant results == TrimAll(done)
    {
      var c := t[i];
      if c == '[' {
        inBrackets := true;
      } else if c == ']' {
        inBrackets := false;
      } else if c == ',' && !inBrackets {
        TrimAllSnoc(done, current);
        results := results + [TrimSpace(PythonWhitespace, current)];
        done := done + [current];
        current := "";
        i := i + 1;
        continue;
      }
      current := current + [c];
      i := i + 1;
    }
    ResultsOfPieces(text, done, current);
    if current != "" {
      results := results + [TrimSpace(PythonWhitespace, current)];
    }
  }

  lemma ResultsOfPieces(text: string, done: seq<string>, current: string)
    requires Pieces(TrimSpace(PythonWhitespace, text)) == done + [current]
    ensures ResultsOf(text) == TrimAll(done) + (if current != "" then [TrimSpace(PythonWhitespace, current)] else [])
  {
    assert Pieces(TrimSpace(PythonWhitespace, text))[..|done|] == done;
  }

  /** Splitting is lossless: the raw pieces joined with commas give back the stripped text. */
  lemma PiecesJoin(text: string)
    ensures Join(Pieces(TrimSpace(PythonWhitespace, text)), ",") == TrimSpace(PythonWhitespace, text)
  {
    JoinSegments(TrimSpace(PythonWhitespace, text), false, ',', OutsideBrackets, BracketNext);
  }

  // ----- Parsing the result lines -----

  datatype LineError =
    | NoQueryNumber           // fewer than two words before ": " (IndexError)
    | BadQueryNumber(token: string)   // the second word is not an integer (ValueError)
    | NoSeparator             // no ": " in the line (IndexError)

  datatype LineOutcome = Skip | Parsed(query: int, results: seq<string>) | Failed(error: LineError)

  /** One line of the results file. Only lines starting with "Query" are read;
      the query number is the second word of the text before the first ": ". */
  function ParseLine(line: string): (r: LineOutcome)
    ensures r.Skip? <==> !("Query" <= line)
  {
    if !("Query" <= line) then Skip
    else
      var sep := IndexOf(line, ": ");
      var head := if sep.Some? then line[..sep.value] else line;
      var words := Fields(PythonWhitespace, head);
      if |words| < 2 then Failed(NoQueryNumber)
      else match ParseInt(words[1])
        case None => Failed(BadQueryNumber(words[1]))
        case Some(q) =>
          if sep.None? then Failed(NoSeparator)
          else Parsed(q, ResultsOf(line[sep.value + 2..]))
  }

  /** A parsed line has a ": ", and its query number is the integer written as
      the second word before the first one; its results are those of the text
      after it. */
  lemma ParsedLine(line: string)
    requires ParseLine(line).Parsed?
    ensures IndexOf(line, ": ").Some?
    ensures var i := IndexOf(line, ": ").value;
      && |Fields(PythonWhitespace, line[..i])| >= 2 && ParseInt(Fields(PythonWhitespace, line[..i])[1]) == Some(ParseLine(line).query)
      && ParseLine(line).results == ResultsOf(line[i + 2..])
  {
  }

  function ParseLines(lines: seq<string>): (r: seq<LineOutcome>)
    ensures |r| == |lines| && forall k :: 0 <= k < |lines| ==> r[k] == ParseLine(lines[k])
  {
    seq(|lines|, k requires 0 <= k < |lines| => ParseLine(lines[k]))
  }

  /** The per-query results after the given line outcomes, or the first failure. */
  function Collect(outcomes: seq<LineOutcome>): Result<map<int, seq<string>>, LineError>
  {
    if outcomes == [] then Ok(map[])
    else
      match Collect(outcomes[..|outcomes| - 1])
      case Err(e) => Err(e)
      case Ok(m) =>
        match outcomes[|outcomes| - 1]
        case Skip => Ok(m)
        case Failed(e) => Err(e)
        case Parsed(q, rs) => Ok(m[q := rs])
  }

  /** The parsing loop over the lines of the results file. */
  method ParseActual(lines: seq<string>) returns (r: Result<map<int, seq<string>>, LineError>)
    ensures r == Collect(ParseLines(lines))
  {
    var actual: map<int, seq<string>> := map[];
    ghost var outcomes := ParseLines(lines);
    var i := 0;
    while i < |lines|
      invariant 0 <= i <= |lines|
      invariant Collect(outcomes[..i]) == Ok(actual)
    {
      var line := lines[i];
      var outcome := ParseLine(line);
      assert outcomes[i] == outcome;
      CollectStep(outcomes, i);
      if outcome.Failed? {
        FailureSticks(outcomes, i + 1);
        return Err(outcome.error);
      } else if outcome.Parsed? {
        var results := ParsedResults(line);
        actual := actual[outcome.query := results];
      }
      i := i + 1;
    }
    assert outcomes[..i] == outcomes;
    r := Ok(actual);
  }

  /** The results of a line that parsed, split from the text after its first ": ". */
  method ParsedResults(line: string) returns (results: seq<string>)
    requires ParseLine(line).Parsed?
    ensures results == ParseLine(line).results
  {
    ParsedLine(line);
    var sep := IndexOf(line, ": ");
    results := SplitResults(line[sep.value + 2..]);
  }

  /** Reading one more line. */
  lemma CollectStep(outcomes: seq<LineOutcome>, i: nat)
    requires i < |outcomes|
    ensures Collect(outcomes[..i + 1]) ==
              match Collect(outcomes[..i])
              case Err(e) => Err(e)
              case Ok(m) =>
                match outcomes[i]
                case Skip => Ok(m)
                case Failed(e) => Err(e)
                case Parsed(q, rs) => Ok(m[q := rs])
  {
    assert outcomes[..i + 1][..i] == outcomes[..i];
  }

  /** Once a line fails, reading more lines does not recover. */
  lemma {:induction false} FailureSticks(outcomes: seq<LineOutcome>, n: nat)
    requires n <= |outcomes| && Collect(outcomes[..n]).Err?
    ensures Collect(outcomes) == Collect(outcomes[..n])
    decreases |outcomes| - n
  {
    if n < |outcomes| {
      assert outcomes[..n + 1][..n] == outcomes[..n];
      FailureSticks(outcomes, n + 1);
    } else {
      assert outcomes[..n] == outcomes;
    }
  }

  /** A query's results are those of the last line for that query: a later line
      replaces an earlier one. */
  lemma {:induction false} LastLineWins(outcomes: seq<LineOutcome>, k: nat)
    requires Collect(outcomes).Ok? && k < |outcomes| && outcomes[k].Parsed?
    requires forall j :: k < j < |outcomes| ==> outcomes[j].Parsed? ==> outcomes[j].query != outcomes[k].query
    ensures outcomes[k].query in Collect(outcomes).value
    ensures Collect(outcomes).value[outcomes[k].query] == outcomes[k].results
  {
    var init := outcomes[..|outcomes| - 1];
    if k < |outcomes| - 1 {
      LastLineWins(init, k);
    }
  }

  /** The queries with results are exactly those of the parsed lines. */
  lemma {:induction false} CollectKeys(outcomes: seq<LineOutcome>, q: int)
    requires Collect(outcomes).Ok?
    ensures q in Collect(outcomes).value <==>
      exists k :: 0 <= k < |outcomes| && outcomes[k].Parsed? && outcomes[k].query == q
  {
    if outcomes != [] {
      var init := outcomes[..|outcomes| - 1];
      CollectKeys(init, q);
      if exists k :: 0 <= k < |init| && init[k].Parsed? && init[k].query == q {
        var k :| 0 <= k < |init| && init[k].Parsed? && init[k].query == q;
        assert outcomes[k] == init[k];
      }
    }
  }

  // ----- Comparing with the expected results -----

  /** One query's comparison; missing and extra results are sets, as their
      order in the source is that of a set. */
  datatype Comparison = Comparison(
    matches: bool, actual: seq<string>, expected: seq<string>, missing: set<string>, extra: set<string>)

  function Elements(s: seq<string>): set<string>
  {
    set x | x in s
  }

  lemma SameElements(actual: seq<string>, expected: seq<string>)
    ensures Elements(actual) == Elements(expected) <==> (forall x :: x in actual <==> x in expected)
  {
    if Elements(actual) == Elements(expected) {
      forall x
        ensures x in actual <==> x in expected
      {
        assert x in actual <==> x in Elements(actual);
        assert x in expected <==> x in Elements(expected);
      }
    }
  }

  /** Compare one query's results, ignoring order and repetition. */
  function Compare(actual: seq<string>, expected: seq<string>): (c: Comparison)
    ensures c.matches <==> (forall x :: x in actual <==> x in expected)
    ensures forall x :: x in c.missing <==> x in expected && x !in actual
    ensures forall x :: x in c.extra <==> x in actual && x !in expected
    ensures c.actual == actual && c.expected == expected
  {
    var a := Elements(actual);
    var e := Elements(expected);
    SameElements(actual, expected);
    Comparison(a == e, actual, expected, e - a, a - e)
  }

  /** The results match exactly when nothing is missing and nothing is extra. */
  lemma MatchesIffNoDifference(actual: seq<string>, expected: seq<string>)
    ensures Compare(actual, expected).matches <==>
      Compare(actual, expected).missing == {} && Compare(actual, expected).extra == {}
  {
    var c := Compare(actual, expected);
    if c.missing == {} && c.extra == {} {
      forall x
        ensures x in actual <==> x in expected
      {
        assert x !in c.missing && x !in c.extra;
      }
    }
    if c.matches {
      assert forall x :: x !in c.missing;
    }
  }

  /** A query absent from the results file compares against no results. */
  function Get(actual: map<int, seq<string>>, q: int): (r: seq<string>)
    ensures q !in actual ==> r == []
    ensures q in actual ==> r == actual[q]
  {
    if q in actual then actual[q] else []
  }

  predicate DistinctKeys(expected: seq<(int, seq<string>)>)
  {
    forall j, k :: 0 <= j < k < |expected| ==> expected[j].0 != expected[k].0
  }

  /** The comparison loop: one entry per expected query. */
  method CompareResults(actual: map<int, seq<string>>, expected: seq<(int, seq<string>)>)
    returns (comparison: map<int, Comparison>)
    requires DistinctKeys(expected)
    ensures comparison.Keys == set k | 0 <= k < |expected| :: expected[k].0
    ensures forall k :: 0 <= k < |expected| ==>
      comparison[expected[k].0] == Compare(Get(actual, expected[k].0), expected[k].1)
  {
    comparison := map[];
    var i := 0;
    while i < |expected|
      invariant 0 <= i <= |expected|
      invariant comparison.Keys == set k | 0 <= k < i :: expected[k].0
      invariant forall k :: 0 <= k < i ==>
        comparison[expected[k].0] == Compare(Get(actual, expected[k].0), expected[k].1)
    {
      var (q, exp) := expected[i];
      var act := if q in actual then actual[q] else [];
      comparison := comparison[q := Compare(act, exp)];
      i := i + 1;
    }
  }
}
