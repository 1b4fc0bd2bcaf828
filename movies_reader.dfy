/** The client's movie file reader (client/utils/reader.go): records whose
    field count is off, because a field held a line break, are re-joined
    with the following records; movies are read one at a time and in
    batches. The CSV reader is the sequence of its remaining reads; parsing
    a record into a movie is a parameter. */
module MoviesReading {
  import opened Wrappers
  import opened Text
  import Utils

  /** A CSV record; encoding/csv never returns one without fields. */
  type Row = r: seq<string> | |r| > 0 witness [""]

  /** One read of the CSV reader: a record, or an error other than io.EOF
      (io.EOF is the end of the sequence of reads). */
  datatype CsvRead = Record(fields: Row) | ReadFailed

  /** The CSV reader, as the reads it still has to give. */
  class CsvReader {
    var rows: seq<CsvRead>

    constructor(rows: seq<CsvRead>)
      ensures this.rows == rows
    {
      this.rows := rows;
    }

    /** csv.Reader.Read: the next read, or None for io.EOF. */
    method Read() returns (r: Option<CsvRead>)
      modifies this
      ensures old(rows) == [] ==> r.None? && rows == []
      ensures old(rows) != [] ==> r == Some(old(rows)[0]) && rows == old(rows)[1..]
    {
      if rows == [] {
        return None;
      }
      r := Some(rows[0]);
      rows := rows[1..];
    }
  }

  datatype ReaderError = ReadError | JoinFailed | ParseFailed

  // ----- joinRecords -----

  /** One joining step: the next record's first field goes onto the last
      field, after a space, and its other fields are appended. */
  function Merge(joined: Row, next: Row): Row
  {
    joined[|joined| - 1 := joined[|joined| - 1] + " " + next[0]] + next[1..]
  }

  /** The outcome of joining: the record, or None after a failed read, and
      the number of reads taken. */
  datatype Joined = Joined(record: Option<seq<string>>, used: nat)

  /** joinRecords as a value: records are merged in until there are at least
      `expected` fields; a read error or the end of the file fails. */
  function JoinFrom(joined: Row, pending: seq<CsvRead>, expected: int): (r: Joined)
    ensures r.used <= |pending|
    ensures r.record.Some? ==> |r.record.value| >= expected
    ensures |joined| >= expected ==> r == Joined(Some(joined), 0)
    decreases |pending|
  {
    if |joined| >= expected then Joined(Some(joined), 0)
    else if pending == [] then Joined(None, 0)
    else match pending[0]
      case ReadFailed => Joined(None, 1)
      case Record(next) =>
        var r := JoinFrom(Merge(joined, next), pending[1..], expected);
        Joined(r.record, r.used + 1)
  }

  /** joinRecords: the last field is overwritten and the record grows in
      place, one read at a time. */
  method JoinRecords(r: CsvReader, current: Row, expected: int) returns (res: Result<seq<string>, ReaderError>)
    modifies r
    ensures var j := JoinFrom(current, old(r.rows), expected);
      && (res.Ok? <==> j.record.Some?)
      && (res.Ok? ==> res.value == j.record.value)
      && (res.Err? ==> res.error == JoinFailed)
      && r.rows == old(r.rows)[j.used..]
  {
    ghost var rows0 := r.rows;
    ghost var consumed := 0;
    var joined: Row := current;
    while |joined| < expected
      invariant consumed <= |rows0| && r.rows == rows0[consumed..]
      invariant var j := JoinFrom(joined, r.rows, expected);
        Joined(j.record, j.used + consumed) == JoinFrom(current, rows0, expected)
      decreases |r.rows|
    {
      ghost var prev := joined;
      ghost var pending := r.rows;
      var next := r.Read();
      if next.None? || next.value.ReadFailed? {
        assert pending != [] ==> rows0[consumed + 1..] == pending[1..];
        return Err(JoinFailed);
      }
      var fields := next.value.fields;
      joined := joined[|joined| - 1 := joined[|joined| - 1] + " " + fields[0]];
      if |fields| > 1 {
        joined := joined + fields[1..];
      } else {
        assert fields[1..] == [];
      }
      assert joined == Merge(prev, fields);
      consumed := consumed + 1;
      assert rows0[consumed..] == rows0[consumed - 1..][1..];
    }
    res := Ok(joined);
  }

  /** The text a record stands for: its fields separated by commas. */
  function Line(fields: seq<string>): string
  {
    Join(fields, ",")
  }

  /** The text of the reads a join takes: each record's line after a
      space, standing for the line break it was cut at. */
  function Continuation(rows: seq<CsvRead>): string
  {
    if rows == [] then ""
    else (match rows[0] case Record(f) => " " + Line(f) case ReadFailed => "") + Continuation(rows[1..])
  }

  lemma JoinCons(x: string, ys: seq<string>, sep: string)
    ensures Join([x] + ys, sep) == if ys == [] then x else x + sep + Join(ys, sep)
  {
    assert ([x] + ys)[1..] == ys;
  }

  /** Joining two non-empty lists: the two texts with a separator between. */
  lemma {:induction false} JoinConcat(a: seq<string>, b: seq<string>, sep: string)
    requires a != [] && b != []
    ensures Join(a + b, sep) == Join(a, sep) + sep + Join(b, sep)
  {
    if |a| == 1 {
      JoinCons(a[0], b, sep);
      assert a + b == [a[0]] + b;
    } else {
      assert (a + b)[1..] == a[1..] + b;
      JoinConcat(a[1..], b, sep);
      JoinCons(a[0], a[1..], sep);
      assert a == [a[0]] + a[1..];
    }
  }

  /** Merging replaces the line break between two records by a space. */
  lemma MergeText(joined: Row, next: Row)
    ensures Line(Merge(joined, next)) == Line(joined) + " " + Line(next)
  {
    var n := |joined|;
    var a, b := joined[n - 1], next[0];
    var front := joined[..n - 1];
    var rest := next[1..];
    assert Merge(joined, next) == front + ([a + " " + b] + rest);
    assert joined == front + [a];
    assert next == [b] + rest;
    // Line(joined) == p + a, Line(next) == b + t, Line(Merge) == p + (a + " " + b) + t
    var p := if front == [] then "" else Line(front) + ",";
    var t := if rest == [] then "" else "," + Join(rest, ",");
    JoinCons(a + " " + b, rest, ",");
    JoinCons(b, rest, ",");
    assert Join([a + " " + b] + rest, ",") == a + " " + b + t;
    assert Line(next) == b + t;
    if front != [] {
      JoinConcat(front, [a + " " + b] + rest, ",");
      JoinConcat(front, [a], ",");
    } else {
      assert front + ([a + " " + b] + rest) == [a + " " + b] + rest;
      assert front + [a] == [a];
    }
    assert Line(Merge(joined, next)) == p + (a + " " + b + t);
    assert Line(joined) == p + a;
    calc {
      p + (a + " " + b + t);
      { Utils.AppendAssoc(p, a + " " + b, t); }
      p + (a + " " + b) + t;
      { Utils.AppendAssoc(p, a + " ", b); }
      p + (a + " ") + b + t;
      { Utils.AppendAssoc(p, a, " "); }
      (p + a) + " " + b + t;
      { Utils.AppendAssoc((p + a) + " ", b, t); }
      (p + a) + " " + (b + t);
    }
  }


  /** A joined record is the broken line with each line break it spans
      replaced by a space: its text is that of the first record followed by
      the text of the records read to complete it. */
  lemma {:induction false} JoinFromText(joined: Row, pending: seq<CsvRead>, expected: int)
    requires JoinFrom(joined, pending, expected).record.Some?
    ensures var j := JoinFrom(joined, pending, expected);
      Line(j.record.value) == Line(joined) + Continuation(pending[..j.used])
    decreases |pending|
  {
    var j := JoinFrom(joined, pending, expected);
    if |joined| >= expected {
      assert pending[..0] == [];
    } else {
      var next := pending[0].fields;
      JoinFromText(Merge(joined, next), pending[1..], expected);
      MergeText(joined, next);
      var used := JoinFrom(Merge(joined, next), pending[1..], expected).used;
      assert pending[..j.used] == [pending[0]] + pending[1..][..used];
      assert ([pending[0]] + pending[1..][..used])[1..] == pending[1..][..used];
    }
  }

  /** A join only grows the record: every field but the last it started
      with is kept, and the last keeps its text at its start. */
  lemma {:induction false} JoinFromKeeps(joined: Row, pending: seq<CsvRead>, expected: int)
    requires JoinFrom(joined, pending, expected).record.Some?
    ensures var v := JoinFrom(joined, pending, expected).record.value;
      && |v| >= |joined|
      && v[..|joined| - 1] == joined[..|joined| - 1]
      && joined[|joined| - 1] <= v[|joined| - 1]
    decreases |pending|
  {
    if |joined| < expected {
      var next := pending[0].fields;
      var m := Merge(joined, next);
      JoinFromKeeps(m, pending[1..], expected);
      var v := JoinFrom(joined, pending, expected).record.value;
      assert m[..|joined| - 1] == joined[..|joined| - 1];
      assert v[..|joined| - 1] == v[..|m| - 1][..|joined| - 1];
      if |m| > |joined| {
        assert v[|joined| - 1] == v[..|m| - 1][|joined| - 1];
      }
    }
  }

  // ----- ReadMovie and ReadMovies -----

  /** What ReadMovie depends on and changes: the Finished flag and the reads
      left in the CSV reader. */
  datatype ReaderState = ReaderState(finished: bool, rows: seq<CsvRead>)

  /** What a read gave, and the state after it. */
  datatype MovieStep<M> = MovieStep(outcome: Result<Option<M>, ReaderError>, after: ReaderState)

  /** `a` is what is left of `b` after reads from its front. */
  predicate IsSuffix(a: seq<CsvRead>, b: seq<CsvRead>)
  {
    |a| <= |b| && a == b[|b| - |a|..]
  }

  lemma SuffixTrans(a: seq<CsvRead>, b: seq<CsvRead>, c: seq<CsvRead>)
    requires IsSuffix(a, b) && IsSuffix(b, c)
    ensures IsSuffix(a, c)
  {
    assert c[|c| - |b|..][|b| - |a|..] == c[|c| - |a|..];
  }

  /** ReadMovie as a value: nothing once finished; the end of the file
      finishes; a read error fails; a record is handed on. */
  function NextMovie<M>(st: ReaderState, expected: int, parse: seq<string> -> Option<M>): MovieStep<M>
  {
    if st.finished then MovieStep(Ok(None), st)
    else if |st.rows| == 0 then MovieStep(Ok(None), ReaderState(true, st.rows))
    else match st.rows[0]
      case ReadFailed => MovieStep(Err(ReadError), ReaderState(false, st.rows[1..]))
      case Record(rec) => RecordMovie(rec, st.rows[1..], expected, parse)
  }

  /** A record just read, with the reads after it: joined when its field
      count differs from the header's, then parsed. */
  function RecordMovie<M>(rec: Row, rest: seq<CsvRead>, expected: int, parse: seq<string> -> Option<M>): MovieStep<M>
  {
    var j := if |rec| != expected then JoinFrom(rec, rest, expected) else Joined(Some(rec), 0);
    var after := ReaderState(false, rest[j.used..]);
    match j.record
    case None => MovieStep(Err(JoinFailed), after)
    case Some(record) =>
      match parse(record)
      case None => MovieStep(Err(ParseFailed), after)
      case Some(m) => MovieStep(Ok(Some(m)), after)
  }

  /** A record read gives a movie or an error, never nil, and leaves the
      reader unfinished with the reads after the ones it used. */
  lemma RecordMovieSpec<M>(rec: Row, rest: seq<CsvRead>, expected: int, parse: seq<string> -> Option<M>)
    ensures var s := RecordMovie(rec, rest, expected, parse);
      && !s.after.finished && s.outcome != Ok(None)
      && IsSuffix(s.after.rows, rest)
  {
    var j := if |rec| != expected then JoinFrom(rec, rest, expected) else Joined(Some(rec), 0);
    assert RecordMovie(rec, rest, expected, parse).after.rows == rest[j.used..];
  }

  /** ReadMovie's contract: once finished it returns nil and changes
      nothing; it returns nil exactly when finished or at the end of the
      file, and then the reader is finished; it consumes reads from the
      front, at least one when it reads at all. */
  lemma NextMovieSpec<M>(st: ReaderState, expected: int, parse: seq<string> -> Option<M>)
    ensures var s := NextMovie(st, expected, parse);
      && (st.finished ==> s == MovieStep(Ok(None), st))
      && (s.outcome == Ok(None) <==> st.finished || |st.rows| == 0)
      && (s.outcome == Ok(None) ==> s.after.finished)
      && IsSuffix(s.after.rows, st.rows)
      && (!st.finished && |st.rows| > 0 ==> |s.after.rows| < |st.rows|)
  {
    if !st.finished && |st.rows| > 0 {
      var rest := st.rows[1..];
      assert st.rows[|st.rows| - |rest|..] == rest;
      if st.rows[0].Record? {
        RecordMovieSpec(st.rows[0].fields, rest, expected, parse);
        SuffixTrans(NextMovie(st, expected, parse).after.rows, rest, st.rows);
      }
    }
  }

  /** A record already as long as the header is not joined: the parser gets
      it as read; one that is longer is not joined either. */
  lemma LongRecordNotJoined<M>(rec: Row, rest: seq<CsvRead>, expected: int, parse: seq<string> -> Option<M>)
    requires |rec| >= expected
    ensures RecordMovie(rec, rest, expected, parse).after.rows == rest
    ensures RecordMovie(rec, rest, expected, parse).outcome ==
              match parse(rec) case None => Err(ParseFailed) case Some(m) => Ok(Some(m))
  {
  }

  /** ReadMovie, as a function of the state, for ReadMovies to repeat. */
  function MovieReads<M>(expected: int, parse: seq<string> -> Option<M>): ReaderState -> MovieStep<M>
  {
    st => NextMovie(st, expected, parse)
  }

  /** MovieReads meets ReadMovies' requirement on `read`. */
  lemma MovieReadsAgrees<M>(expected: int, parse: seq<string> -> Option<M>)
    ensures forall st {:trigger NextMovie(st, expected, parse)} :: MovieReads(expected, parse)(st) == NextMovie(st, expected, parse)
  {
  }

  /** What ReadMovies relies on from a read: once finished it reads nothing;
      nil only comes with the reader finished; reads are taken from the
      front. */
  ghost predicate Reads<M>(read: ReaderState -> MovieStep<M>)
  {
    forall st: ReaderState ::
      && (st.finished ==> read(st) == MovieStep(Ok(None), st))
      && (read(st).outcome == Ok(None) ==> read(st).after.finished)
      && IsSuffix(read(st).after.rows, st.rows)
  }

  lemma MovieReadsReads<M>(expected: int, parse: seq<string> -> Option<M>)
    ensures Reads(MovieReads(expected, parse))
  {
    forall st: ReaderState
      ensures var s := MovieReads(expected, parse)(st);
        && (st.finished ==> s == MovieStep(Ok(None), st))
        && (s.outcome == Ok(None) ==> s.after.finished)
        && IsSuffix(s.after.rows, st.rows)
    {
      assert MovieReads(expected, parse)(st) == NextMovie(st, expected, parse);
      NextMovieSpec(st, expected, parse);
    }
  }

  /** What a batch gave, and the state after it. */
  datatype BatchStep<M> = BatchStep(outcome: Result<seq<M>, ReaderError>, after: ReaderState)

  /** ReadMovies as a value: up to n reads; the first nil ends the batch and
      the first error discards it. */
  function BatchFrom<M>(st: ReaderState, read: ReaderState -> MovieStep<M>, n: int): (b: BatchStep<M>)
    ensures b.outcome.Ok? ==> |b.outcome.value| <= if n < 0 then 0 else n
    decreases if n < 0 then 0 else n
  {
    if n <= 0 then BatchStep(Ok([]), st)
    else
      var s := read(st);
      match s.outcome
      case Err(e) => BatchStep(Err(e), s.after)
      case Ok(None) => BatchStep(Ok([]), s.after)
      case Ok(Some(m)) =>
        var rest := BatchFrom(s.after, read, n - 1);
        match rest.outcome
        case Err(e) => BatchStep(Err(e), rest.after)
        case Ok(ms) => BatchStep(Ok([m] + ms), rest.after)
  }

  /** The movies `ms` read so far ahead of what the rest of the batch gives. */
  function After<M>(ms: seq<M>, b: BatchStep<M>): BatchStep<M>
  {
    match b.outcome
    case Err(e) => BatchStep(Err(e), b.after)
    case Ok(xs) => BatchStep(Ok(ms + xs), b.after)
  }

  lemma AfterNothing<M>(b: BatchStep<M>)
    ensures After([], b) == b
  {
    if b.outcome.Ok? {
      assert [] + b.outcome.value == b.outcome.value;
    }
  }

  /** A batch shorter than asked for means the file is exhausted. */
  lemma {:induction false} ShortBatchFinishes<M>(st: ReaderState, read: ReaderState -> MovieStep<M>, n: int)
    requires Reads(read)
    requires var b := BatchFrom(st, read, n); b.outcome.Ok? && |b.outcome.value| < n
    ensures BatchFrom(st, read, n).after.finished
    decreases if n < 0 then 0 else n
  {
    var s := read(st);
    if s.outcome.Ok? && s.outcome.value.Some? {
      ShortBatchFinishes(s.after, read, n - 1);
    }
  }

  /** Once finished, a batch reads nothing and changes nothing. */
  lemma FinishedBatchIsEmpty<M>(rows: seq<CsvRead>, read: ReaderState -> MovieStep<M>, n: int)
    requires Reads(read)
    ensures BatchFrom(ReaderState(true, rows), read, n) == BatchStep(Ok([]), ReaderState(true, rows))
  {
    var st := ReaderState(true, rows);
    assert read(st) == MovieStep(Ok(None), st);
  }

  /** A batch takes reads from the front of the file and never more than it
      holds. */
  lemma {:induction false} BatchConsumes<M>(st: ReaderState, read: ReaderState -> MovieStep<M>, n: int)
    requires Reads(read)
    ensures IsSuffix(BatchFrom(st, read, n).after.rows, st.rows)
    decreases if n < 0 then 0 else n
  {
    if n > 0 {
      var s := read(st);
      assert IsSuffix(s.after.rows, st.rows);
      if s.outcome.Ok? && s.outcome.value.Some? {
        BatchConsumes(s.after, read, n - 1);
        SuffixTrans(BatchFrom(s.after, read, n - 1).after.rows, s.after.rows, st.rows);
      }
    }
  }

  /** One read of a batch, with the movies `ms` read before it: an error
      ends the batch with that error, nil ends it with `ms`, and a movie is
      added to `ms` before the rest of the batch. */
  lemma BatchUnfold<M>(st: ReaderState, read: ReaderState -> MovieStep<M>, n: int, ms: seq<M>)
    requires n > 0
    ensures var s := read(st);
      var b := After(ms, BatchFrom(st, read, n));
      && (s.outcome.Err? ==> b == BatchStep(Err(s.outcome.error), s.after))
      && (s.outcome == Ok(None) ==> b == BatchStep(Ok(ms), s.after))
      && (s.outcome.Ok? && s.outcome.value.Some? ==>
            b == After(ms + [s.outcome.value.value], BatchFrom(s.after, read, n - 1)))
  {
    var s := read(st);
    if s.outcome == Ok(None) {
      assert ms + [] == ms;
    } else if s.outcome.Ok? {
      var m := s.outcome.value.value;
      var rest := BatchFrom(s.after, read, n - 1);
      if rest.outcome.Ok? {
        assert ms + ([m] + rest.outcome.value) == (ms + [m]) + rest.outcome.value;
      }
    }
  }

  class MoviesReader {
    var finished: bool
    const reader: CsvReader
    const batchSize: int
    const fields: seq<string>

    /** NewMoviesReader after the header line was read into `fields`. */
    constructor(reader: CsvReader, batchSize: int, fields: seq<string>)
      ensures !finished && this.reader == reader && this.batchSize == batchSize && this.fields == fields
    {
      this.finished := false;
      this.reader := reader;
      this.batchSize := batchSize;
      this.fields := fields;
    }

    /** ReadMovie. */
    method ReadMovie<M>(parse: seq<string> -> Option<M>) returns (r: Result<Option<M>, ReaderError>)
      modifies this, reader
      ensures var s := NextMovie(old(State()), |fields|, parse);
        r == s.outcome && State() == s.after
    {
      var expectedFields := |fields|;
      if finished {
        return Ok(None);
      }
      var read := reader.Read();
      if read.None? {
        finished := true;
        return Ok(None);
      }
      if read.value.ReadFailed? {
        return Err(ReadError);
      }
      var record: seq<string> := read.value.fields;
      if |record| != expectedFields {
        var joined := JoinRecords(reader, read.value.fields, expectedFields);
        if joined.Err? {
          return Err(joined.error);
        }
        record := joined.value;
      }
      var movie := parse(record);
      if movie.None? {
        return Err(ParseFailed);
      }
      r := Ok(Some(movie.value));
    }

    /** The part of the reader's state that ReadMovie reads and changes. */
    ghost function State(): ReaderState
      reads this, reader
    {
      ReaderState(finished, reader.rows)
    }

    /** ReadMovies: ReadMovie repeated at most batchSize times. The batch is
        stated with any `read` that agrees with ReadMovie, such as
        MovieReads(|fields|, parse). */
    method ReadMovies<M>(parse: seq<string> -> Option<M>, ghost read: ReaderState -> MovieStep<M>) returns (r: Result<seq<M>, ReaderError>)
      requires forall st {:trigger NextMovie(st, |fields|, parse)} :: read(st) == NextMovie(st, |fields|, parse)
      modifies this, reader
      ensures var b := BatchFrom(old(State()), read, batchSize);
        r == b.outcome && State() == b.after
    {
      ghost var total := BatchFrom(State(), read, batchSize);
      var movies: seq<M> := [];
      AfterNothing(total);
      var i := 0;
      while i < batchSize
        invariant After(movies, BatchFrom(State(), read, batchSize - i)) == total
        decreases batchSize - i
      {
        BatchUnfold(State(), read, batchSize - i, movies);
        var movie := ReadMovie(parse);
        match movie {
          case Err(e) =>
            assert total == BatchStep(Err(e), State());
            return Err(e);
          case Ok(None) =>
            assert total == BatchStep(Ok(movies), State());
            break;
          case Ok(Some(m)) =>
            movies := movies + [m];
        }
        i := i + 1;
      }
      if i >= batchSize {
        assert movies + [] == movies;
      }
      r := Ok(movies);
    }
  }
}
