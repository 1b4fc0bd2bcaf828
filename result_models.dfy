/** The client-facing result records of pkg/models/Results.go: the query
    number each one answers and the line of text the client prints for it. */
module ResultModels {
  import opened Wrappers
  import opened Machine
  import opened Text
  import opened Records
  import opened CompareOutputs

  /** The opening every printed result line shares: "Query <n>: ". */
  function LineHead(queryId: nat): string
  {
    "Query " + NatToString(queryId) + ": "
  }

  function GenreNames(genres: seq<Genre>): (names: seq<string>)
    ensures |names| == |genres| && forall k :: 0 <= k < |genres| ==> names[k] == genres[k].name
  {
    seq(|genres|, k requires 0 <= k < |genres| => genres[k].name)
  }

  datatype Q1Movie = Q1Movie(title: string, genres: seq<Genre>)
  {
    function QueryId(): int { 1 }

    /** The title, then the genre names separated by ", " between brackets. */
    function String(): string
    {
      "Query 1: " + title + " | Genres: [" + Join(GenreNames(genres), ", ") + "]"
    }
  }

  datatype Q2Country = Q2Country(country: Country)
  {
    function QueryId(): int { 2 }

    function String(): string
    {
      "Query 2: " + country.name
    }
  }

  datatype Q3Movie = Q3Movie(title: string)
  {
    function QueryId(): int { 3 }

    function String(): string
    {
      "Query 3: " + title
    }
  }

  datatype Q4Actors = Q4Actors(actor: string, appearances: u32)
  {
    function QueryId(): int { 4 }

    function String(): string
    {
      "Query 4: " + actor + " | Appearances: " + NatToString(appearances)
    }
  }

  /** Only the query number of Q5Avg is modelled: its text formats a float. */
  datatype Q5Avg = Q5Avg(avg: real)
  {
    function QueryId(): int { 5 }
  }

  /** Q1Movie.String as the source computes it: the genre names are appended
      one by one, each but the last followed by ", ". */
  method Q1MovieString(q: Q1Movie) returns (str: string)
    ensures str == q.String()
  {
    var names := GenreNames(q.genres);
    var prefix := "Query 1: " + q.title + " | Genres: [";
    str := prefix;
    var i := 0;
    while i < |q.genres|
      invariant 0 <= i <= |q.genres|
      invariant str == prefix + Join(names[..i], ", ") + (if 0 < i < |q.genres| then ", " else "")
    {
      if i > 0 {
        JoinSnoc(names[..i], names[i], ", ");
        assert names[..i + 1] == names[..i] + [names[i]];
      } else {
        assert names[..1] == [names[0]];
      }
      str := str + q.genres[i].name;
      if i < |q.genres| - 1 {
        str := str + ", ";
      }
      i := i + 1;
    }
    assert names[..|q.genres|] == names;
    str := str + "]";
  }

  /** A movie with no genres prints an empty bracket pair; otherwise the
      list in brackets opens with the first genre's name. The line always
      ends with the closing bracket. */
  lemma Q1GenreList(q: Q1Movie)
    ensures var head := "Query 1: " + q.title + " | Genres: [";
      && head <= q.String()
      && (q.genres == [] ==> q.String() == head + "]")
      && (q.genres != [] ==> head + q.genres[0].name <= q.String())
      && q.String()[|q.String()| - 1] == ']'
  {
    if q.genres != [] {
      var names := GenreNames(q.genres);
      JoinStartsWithFirst(names, ", ");
    }
  }

  lemma {:induction false} JoinStartsWithFirst(parts: seq<string>, sep: string)
    requires parts != []
    ensures parts[0] <= Join(parts, sep)
  {
    if |parts| > 1 {
      assert Join(parts, sep) == parts[0] + (sep + Join(parts[1..], sep));
    }
  }

  /** Every printed line opens with "Query <n>: " for the record's own query
      number. */
  lemma LinesOpenWithQueryId(q1: Q1Movie, q2: Q2Country, q3: Q3Movie, q4: Q4Actors)
    ensures LineHead(q1.QueryId()) <= q1.String()
    ensures LineHead(q2.QueryId()) <= q2.String()
    ensures LineHead(q3.QueryId()) <= q3.String()
    ensures LineHead(q4.QueryId()) <= q4.String()
  {
    assert NatToString(1) == "1";
    assert NatToString(2) == "2";
    assert NatToString(3) == "3";
    assert NatToString(4) == "4";
    assert LineHead(1) == "Query 1: ";
    assert q1.String() == "Query 1: " + (q1.title + " | Genres: [" + Join(GenreNames(q1.genres), ", ") + "]");
    assert q4.String() == "Query 4: " + (q4.actor + " | Appearances: " + NatToString(q4.appearances));
  }

  /** The output comparator files a line opening with "Query <d>: " under
      query d, and splits the rest of the line into its results. */
  lemma ComparatorReadsHead(d: nat, line: string)
    requires 1 <= d <= 9 && LineHead(d) <= line
    ensures ParseLine(line) == Parsed(d, ResultsOf(line[9..]))
  {
    var digit := NatToString(d);
    assert digit == [DigitChar(d)];
    assert line[..9] == LineHead(d);
    assert line[..6] == "Query " && line[6] == DigitChar(d) && line[7..9] == ": ";
    assert "Query" <= line;
    HeadSeparator(line);
    var head := line[..7];
    assert head == "Query " + digit;
    HeadWords(head, digit);
    assert ParseInt(digit) == Some(d) by {
      DigitsValueOfNatToString(d);
    }
  }

  /** The first ": " of such a line is the one after the query number. */
  lemma HeadSeparator(line: string)
    requires |line| >= 9 && line[..6] == "Query " && IsDigit(line[6]) && line[7..9] == ": "
    ensures IndexOf(line, ": ") == Some(7)
  {
    forall k | 0 <= k < 7
      ensures !MatchAt(line, ": ", k)
    {
      if k < 6 {
        assert line[k] == line[..6][k] == "Query "[k];
      }
      NoMatchAt(line, ": ", k);
    }
    assert line[7..7 + |": "|] == ": ";
    assert MatchAt(line, ": ", 7);
    var r := IndexOf(line, ": ");
    assert r.Some? && r.value <= 7;
  }

  /** "Query <d>" has two words: "Query" and the number. */
  lemma HeadWords(head: string, digit: string)
    requires |digit| == 1 && IsDigit(digit[0]) && head == "Query " + digit
    ensures Fields(PythonWhitespace, head) == ["Query", digit]
  {
    assert TrimLeft(PythonWhitespace, head) == head;
    assert WordLength(PythonWhitespace, head[5..]) == 0;
    assert WordLength(PythonWhitespace, head[4..]) == 1;
    assert WordLength(PythonWhitespace, head[3..]) == 2;
    assert WordLength(PythonWhitespace, head[2..]) == 3;
    assert WordLength(PythonWhitespace, head[1..]) == 4;
    assert WordLength(PythonWhitespace, head) == 5;
    assert head[..5] == "Query";
    TailWord(head[5..], digit);
  }

  /** " <d>" has the one word "<d>". */
  lemma TailWord(tail: string, digit: string)
    requires |digit| == 1 && IsDigit(digit[0]) && tail == [' '] + digit
    ensures Fields(PythonWhitespace, tail) == [digit]
  {
    assert tail[1..] == digit;
    assert TrimLeft(PythonWhitespace, digit) == digit;
    assert TrimLeft(PythonWhitespace, tail) == digit;
    assert digit[1..] == [];
    assert WordLength(PythonWhitespace, digit) == 1;
    assert digit[..1] == digit;
    assert Fields(PythonWhitespace, digit[1..]) == [];
  }

  /** The comparator reads each printed result under the record's own query
      number. */
  lemma ComparatorFilesResults(q1: Q1Movie, q2: Q2Country, q3: Q3Movie, q4: Q4Actors)
    ensures ParseLine(q1.String()).Parsed? && ParseLine(q1.String()).query == q1.QueryId()
    ensures ParseLine(q2.String()).Parsed? && ParseLine(q2.String()).query == q2.QueryId()
    ensures ParseLine(q3.String()).Parsed? && ParseLine(q3.String()).query == q3.QueryId()
    ensures ParseLine(q4.String()).Parsed? && ParseLine(q4.String()).query == q4.QueryId()
  {
    LinesOpenWithQueryId(q1, q2, q3, q4);
    ComparatorReadsHead(1, q1.String());
    ComparatorReadsHead(2, q2.String());
    ComparatorReadsHead(3, q3.String());
    ComparatorReadsHead(4, q4.String());
  }
}
