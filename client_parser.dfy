/** The client's field parsers (client/utils/parser.go): the repair of the
    Python-literal JSON found in the CSV files (single-quoted keys and
    strings, None) into JSON, and the parsing of booleans, unsigned integers
    and the required-column check. strconv.Quote and json.Unmarshal are
    parameters. */
module ClientParser {
  import opened Wrappers
  import opened Machine
  import opened Text

  datatype ParseError =
    | NotAnObject(input: string)              // not wrapped in { }
    | BadPair(pair: string)                   // a pair without ':'
    | NotAnArray(input: string)               // not wrapped in [ ]
    | NoObjects(input: string)                // no {...} inside the array
    | BadObject(obj: string, cause: ParseError)
    | UnmarshalFailed
    | BadBool(str: string)
    | BadUint(str: string)

  // ----- splitPairs -----

  /** Whether the scanner is inside a quoted section, and which quote
      character opened it. */
  datatype QuoteState = Unquoted | Quoted(quote: char)

  predicate IsQuote(c: char)
  {
    c == '\'' || c == '"'
  }

  /** A quote character opens a section outside one, and closes it only when
      it is the character that opened it. */
  function QuoteNext(st: QuoteState, c: char): QuoteState
  {
    if !IsQuote(c) then st
    else match st
      case Unquoted => Quoted(c)
      case Quoted(q) => if c == q then Unquoted else st
  }

  /** A comma separates pairs only outside quotes. */
  predicate OutsideQuotes(st: QuoteState)
  {
    st.Unquoted?
  }

  /** The raw pieces between the commas outside quotes; quotes are kept. */
  function RawPairs(input: string): (r: seq<string>)
    ensures r != []
  {
    Segments(input, Unquoted, ',', OutsideQuotes, QuoteNext)
  }

  /** A piece is kept, stripped, when it is not blank. */
  function Kept(piece: string): seq<string>
  {
    var p := TrimSpace(GoWhitespace, piece);
    if p != "" then [p] else []
  }

  function KeptPairs(pieces: seq<string>): seq<string>
  {
    if pieces == [] then []
    else KeptPairs(pieces[..|pieces| - 1]) + Kept(pieces[|pieces| - 1])
  }

  /** The pairs of a dictionary body: its raw pieces, stripped, without the
      blank ones. */
  function PairsOf(input: string): seq<string>
  {
    KeptPairs(RawPairs(input))
  }

  function StateOf(inQuote: bool, quoteChar: char): QuoteState
  {
    if inQuote then Quoted(quoteChar) else Unquoted
  }

  /** The quote bookkeeping of splitPairs for one quote character: a quote
      opens a quoted section, and only the same kind of quote closes it. */
  method ToggleQuote(r: char, inQuote: bool, quoteChar: char) returns (nowIn: bool, nowChar: char)
    requires IsQuote(r)
    ensures StateOf(nowIn, nowChar) == QuoteNext(StateOf(inQuote, quoteChar), r)
  {
    nowIn, nowChar := inQuote, quoteChar;
    if inQuote {
      if r == quoteChar {
        nowIn := false;
        nowChar := 0 as char;
      }
    } else {
      nowIn := true;
      nowChar := r;
    }
  }

  /** Closing one more piece keeps the pairs of the pieces closed so far. */
  lemma KeptPairsSnoc(done: seq<string>, piece: string)
    ensures KeptPairs(done + [piece]) == KeptPairs(done) + Kept(piece)
  {
    assert (done + [piece])[..|done|] == done;
  }

  /** splitPairs: one pass over the characters with the quote state and the
      piece under way. */
  method SplitPairs(input: string) returns (pairs: seq<string>)
    ensures pairs == PairsOf(input)
  {
    ghost var done: seq<string> := [];
    pairs := [];
    var current := "";
    var inQuote := false;
    var quoteChar: char := 0 as char;
    var i := 0;
    ghost var raw := RawPairs(input);
    ScanFromStart(input, Unquoted, ',', OutsideQuotes, QuoteNext);
    while i < |input|
      invariant 0 <= i <= |input|
      invariant raw == Scan(input, i, StateOf(inQuote, quoteChar), current, done, ',', OutsideQuotes, QuoteNext)
      invariant pairs == KeptPairs(done)
    {
      var r := input[i];
      ghost var st := StateOf(inQuote, quoteChar);
      if r == '\'' || r == '"' {
        inQuote, quoteChar := ToggleQuote(r, inQuote, quoteChar);
        assert raw == Scan(input, i + 1, QuoteNext(st, r), current + [r], done, ',', OutsideQuotes, QuoteNext);
        current := current + [r];
        i := i + 1;
        continue;
      }
      if r == ',' && !inQuote {
        var pair := TrimSpace(GoWhitespace, current);
        KeptPairsSnoc(done, current);
        if pair != "" {
          pairs := pairs + [pair];
        }
        assert raw == Scan(input, i + 1, st, "", done + [current], ',', OutsideQuotes, QuoteNext);
        done := done + [current];
        current := "";
      } else {
        assert QuoteNext(st, r) == st;
        assert raw == Scan(input, i + 1, st, current + [r], done, ',', OutsideQuotes, QuoteNext);
        current := current + [r];
      }
      i := i + 1;
    }
    KeptPairsSnoc(done, current);
    if |current| > 0 {
      var pair := TrimSpace(GoWhitespace, current);
      if pair != "" {
        pairs := pairs + [pair];
      }
    }
  }

  lemma PrependPrepend(a: string, b: string, segs: seq<string>)
    requires segs != []
    ensures Prepend(a, Prepend(b, segs)) == Prepend(a + b, segs)
  {
    assert a + (b + segs[0]) == (a + b) + segs[0];
  }

  /** Inside a section opened by `q`, text without `q` is never cut. */
  lemma {:induction false} QuotedRun(body: string, q: char, tail: string)
    requires IsQuote(q) && forall k :: 0 <= k < |body| ==> body[k] != q
    ensures Segments(body + tail, Quoted(q), ',', OutsideQuotes, QuoteNext)
         == Prepend(body, Segments(tail, Quoted(q), ',', OutsideQuotes, QuoteNext))
  {
    var segs := Segments(tail, Quoted(q), ',', OutsideQuotes, QuoteNext);
    if body == [] {
      assert body + tail == tail;
      PrependEmpty(segs);
    } else {
      QuotedRun(body[1..], q, tail);
      assert (body + tail)[1..] == body[1..] + tail;
      assert QuoteNext(Quoted(q), body[0]) == Quoted(q);
      PrependPrepend([body[0]], body[1..], segs);
      assert [body[0]] + body[1..] == body;
    }
  }

  /** A comma inside a quoted section does not split: a quote, text without
      that quote and the closing quote stay together at the head of the first
      pair, whatever follows. */
  lemma QuotedSectionNotCut(q: char, body: string, rest: string)
    requires IsQuote(q) && forall k :: 0 <= k < |body| ==> body[k] != q
    ensures RawPairs([q] + body + [q] + rest) == Prepend([q] + body + [q], RawPairs(rest))
  {
    var s := [q] + body + [q] + rest;
    assert s[1..] == body + ([q] + rest);
    QuotedRun(body, q, [q] + rest);
    assert ([q] + rest)[1..] == rest;
    var after := Segments(rest, Unquoted, ',', OutsideQuotes, QuoteNext);
    assert Segments([q] + rest, Quoted(q), ',', OutsideQuotes, QuoteNext) == Prepend([q], after);
    PrependPrepend(body, [q], after);
    PrependPrepend([q], body + [q], after);
    assert [q] + (body + [q]) == [q] + body + [q];
  }

  /** The raw pieces joined with commas give back the input: nothing but the
      separating commas is dropped. */
  lemma RawPairsJoin(input: string)
    ensures Join(RawPairs(input), ",") == input
  {
    JoinSegments(input, Unquoted, ',', OutsideQuotes, QuoteNext);
  }

  /** Keeping pairs distributes over concatenation, so their order is that of
      the pieces. */
  lemma {:induction false} KeptPairsAppend(a: seq<string>, b: seq<string>)
    ensures KeptPairs(a + b) == KeptPairs(a) + KeptPairs(b)
    decreases |b|
  {
    if b == [] {
      assert a + b == a;
    } else {
      var b' := b[..|b| - 1];
      assert (a + b)[..|a + b| - 1] == a + b';
      KeptPairsAppend(a, b');
    }
  }

  /** The pairs are exactly the non-blank pieces, stripped. */
  lemma {:induction false} KeptPairsMembers(pieces: seq<string>, p: string)
    ensures p in KeptPairs(pieces) <==> p != "" && exists k :: 0 <= k < |pieces| && TrimSpace(GoWhitespace, pieces[k]) == p
  {
    if pieces != [] {
      var init := pieces[..|pieces| - 1];
      var last := pieces[|pieces| - 1];
      KeptPairsMembers(init, p);
      assert KeptPairs(pieces) == KeptPairs(init) + Kept(last);
      assert p in Kept(last) <==> p != "" && TrimSpace(GoWhitespace, last) == p;
      if exists k :: 0 <= k < |pieces| && TrimSpace(GoWhitespace, pieces[k]) == p {
        var k :| 0 <= k < |pieces| && TrimSpace(GoWhitespace, pieces[k]) == p;
        if k < |init| {
          assert TrimSpace(GoWhitespace, init[k]) == p;
        }
      }
      if exists k :: 0 <= k < |init| && TrimSpace(GoWhitespace, init[k]) == p {
        var k :| 0 <= k < |init| && TrimSpace(GoWhitespace, init[k]) == p;
        assert pieces[k] == init[k];
      }
    }
  }

  /** No pair is blank, and none starts or ends with whitespace. */
  lemma {:induction false} KeptPairsTrimmed(pieces: seq<string>, p: string)
    requires p in KeptPairs(pieces)
    ensures p != "" && !IsSpace(GoWhitespace, p[0]) && !IsSpace(GoWhitespace, p[|p| - 1])
  {
    KeptPairsMembers(pieces, p);
    var k :| 0 <= k < |pieces| && TrimSpace(GoWhitespace, pieces[k]) == p;
    TrimSpaceInfix(GoWhitespace, pieces[k]);
  }

  // ----- fixJSONObject -----

  /** The results of `f` on every item, or the error of the first item it
      fails on. */
  function Traverse<A, B>(xs: seq<A>, f: A -> Result<B, ParseError>): Result<seq<B>, ParseError>
  {
    if xs == [] then Ok([])
    else match Traverse(xs[..|xs| - 1], f)
      case Err(e) => Err(e)
      case Ok(bs) =>
        match f(xs[|xs| - 1])
        case Err(e) => Err(e)
        case Ok(b) => Ok(bs + [b])
  }

  /** Traversing succeeds exactly when `f` succeeds on every item, and then
      gives `f`'s results in order; otherwise it reports the error of the
      first item `f` fails on. */
  lemma {:induction false} TraverseSpec<A, B>(xs: seq<A>, f: A -> Result<B, ParseError>)
    ensures Traverse(xs, f).Ok? <==> forall k :: 0 <= k < |xs| ==> f(xs[k]).Ok?
    ensures Traverse(xs, f).Ok? ==>
              |Traverse(xs, f).value| == |xs| &&
              forall k :: 0 <= k < |xs| ==> Traverse(xs, f).value[k] == f(xs[k]).value
    ensures Traverse(xs, f).Err? ==>
              exists k :: 0 <= k < |xs| && f(xs[k]) == Err(Traverse(xs, f).error) &&
                          forall j :: 0 <= j < k ==> f(xs[j]).Ok?
  {
    if xs != [] {
      var init := xs[..|xs| - 1];
      TraverseSpec(init, f);
      assert forall k :: 0 <= k < |init| ==> init[k] == xs[k];
    }
  }

  /** One more item. */
  lemma TraverseStep<A, B>(xs: seq<A>, i: nat, f: A -> Result<B, ParseError>)
    requires i < |xs|
    ensures Traverse(xs[..i + 1], f) ==
              match Traverse(xs[..i], f)
              case Err(e) => Err(e)
              case Ok(bs) =>
                match f(xs[i])
                case Err(e) => Err(e)
                case Ok(b) => Ok(bs + [b])
  {
    assert xs[..i + 1][..i] == xs[..i];
  }

  /** Once an item fails, the items after it are not looked at. */
  lemma {:induction false} TraverseErrSticks<A, B>(xs: seq<A>, n: nat, f: A -> Result<B, ParseError>)
    requires n <= |xs| && Traverse(xs[..n], f).Err?
    ensures Traverse(xs, f) == Traverse(xs[..n], f)
    decreases |xs| - n
  {
    if n < |xs| {
      TraverseStep(xs, n, f);
      TraverseErrSticks(xs, n + 1, f);
    } else {
      assert xs[..n] == xs;
    }
  }

  function TrimQuotesLeft(s: string): (r: string)
    ensures |r| <= |s| && r == s[|s| - |r|..]
    ensures r != [] ==> r[0] != '\''
  {
    if s != [] && s[0] == '\'' then TrimQuotesLeft(s[1..]) else s
  }

  function TrimQuotesRight(s: string): (r: string)
    ensures |r| <= |s| && r == s[..|r|]
    ensures r != [] ==> r[|r| - 1] != '\''
  {
    if s != [] && s[|s| - 1] == '\'' then TrimQuotesRight(s[..|s| - 1]) else s
  }

  /** strings.Trim(s, "'"): every leading and trailing single quote removed. */
  function TrimQuotes(s: string): string
  {
    TrimQuotesRight(TrimQuotesLeft(s))
  }

  /** A value in single quotes becomes the quoted text between them, a None
      in any letter case becomes null, and any other value is kept. */
  function FixValue(value: string, quote: string -> string): string
  {
    if |value| >= 2 && value[0] == '\'' && value[|value| - 1] == '\'' then quote(value[1..|value| - 1])
    else if ToLower(value) == "none" then "null"
    else value
  }

  /** One "key: value" pair, cut at its first ':', as a JSON entry. */
  function FixPair(pair: string, quote: string -> string): Result<string, ParseError>
  {
    match IndexOf(pair, ":")
    case None => Err(BadPair(pair))
    case Some(c) =>
      var key := TrimQuotes(TrimSpace(GoWhitespace, pair[..c]));
      var value := TrimSpace(GoWhitespace, pair[c + 1..]);
      Ok(quote(key) + ": " + FixValue(value, quote))
  }

  /** fixJSONObject as a value: the stripped input must be wrapped in braces;
      an empty body gives "{}"; otherwise every pair is fixed and the entries
      are joined with ", " inside braces. */
  function FixObject(input: string, quote: string -> string): Result<string, ParseError>
  {
    var t := TrimSpace(GoWhitespace, input);
    if |t| < 2 || t[0] != '{' || t[|t| - 1] != '}' then Err(NotAnObject(t))
    else
      var content := TrimSpace(GoWhitespace, t[1..|t| - 1]);
      if content == "" then Ok("{}")
      else match Traverse(PairsOf(content), p => FixPair(p, quote))
        case Err(e) => Err(e)
        case Ok(entries) => Ok("{" + Join(entries, ", ") + "}")
  }

  /** fixJSONObject: the entries are appended pair by pair; the first bad
      pair ends the loop with its error. */
  method FixJSONObject(input: string, quote: string -> string) returns (r: Result<string, ParseError>)
    ensures r == FixObject(input, quote)
  {
    var t := TrimSpace(GoWhitespace, input);
    if |t| < 2 || t[0] != '{' || t[|t| - 1] != '}' {
      return Err(NotAnObject(t));
    }
    var content := TrimSpace(GoWhitespace, t[1..|t| - 1]);
    if content == "" {
      return Ok("{}");
    }
    var pairs := SplitPairs(content);
    ghost var fix := p => FixPair(p, quote);
    var entries: seq<string> := [];
    var i := 0;
    while i < |pairs|
      invariant 0 <= i <= |pairs|
      invariant Traverse(pairs[..i], fix) == Ok(entries)
    {
      TraverseStep(pairs, i, fix);
      var entry := FixPair(pairs[i], quote);
      if entry.Err? {
        TraverseErrSticks(pairs, i + 1, fix);
        return Err(entry.error);
      }
      entries := entries + [entry.value];
      i := i + 1;
    }
    assert pairs[..i] == pairs;
    r := Ok("{" + Join(entries, ", ") + "}");
  }

  /** fixJSONObject fails exactly when the stripped input is not wrapped in
      braces or some pair of a non-empty body has no ':', and then names the
      first such pair; otherwise it gives a braced text. */
  lemma FixObjectSpec(input: string, quote: string -> string)
    ensures var t := TrimSpace(GoWhitespace, input);
      var wrapped := |t| >= 2 && t[0] == '{' && t[|t| - 1] == '}';
      && (!wrapped ==> FixObject(input, quote) == Err(NotAnObject(t)))
      && (wrapped && TrimSpace(GoWhitespace, t[1..|t| - 1]) == "" ==> FixObject(input, quote) == Ok("{}"))
      && (wrapped && TrimSpace(GoWhitespace, t[1..|t| - 1]) != "" ==>
            var pairs := PairsOf(TrimSpace(GoWhitespace, t[1..|t| - 1]));
            && (FixObject(input, quote).Ok? <==> forall k :: 0 <= k < |pairs| ==> ':' in pairs[k])
            && (FixObject(input, quote).Err? ==>
                  exists k :: 0 <= k < |pairs| && ':' !in pairs[k] && FixObject(input, quote) == Err(BadPair(pairs[k]))))
    ensures FixObject(input, quote).Ok? ==>
              var v := FixObject(input, quote).value; |v| >= 2 && v[0] == '{' && v[|v| - 1] == '}'
  {
    var t := TrimSpace(GoWhitespace, input);
    if |t| >= 2 && t[0] == '{' && t[|t| - 1] == '}' && TrimSpace(GoWhitespace, t[1..|t| - 1]) != "" {
      var pairs := PairsOf(TrimSpace(GoWhitespace, t[1..|t| - 1]));
      var fix := p => FixPair(p, quote);
      TraverseSpec(pairs, fix);
      forall k | 0 <= k < |pairs|
        ensures fix(pairs[k]).Ok? <==> ':' in pairs[k]
      {
        HasColon(pairs[k]);
      }
      var entries := Traverse(pairs, fix);
      if entries.Ok? {
        Enclosed('{', Join(entries.value, ", "), '}');
      }
    }
  }

  /** A text put between two characters starts and ends with them. */
  lemma Enclosed(open: char, body: string, close: char)
    ensures var v := [open] + body + [close];
      |v| >= 2 && v[0] == open && v[|v| - 1] == close
  {
  }

  /** A string has a ':' exactly when IndexOf finds one. */
  lemma HasColon(s: string)
    ensures IndexOf(s, ":").Some? <==> ':' in s
  {
    match IndexOf(s, ":")
    case None =>
      NotAt(s, ':', 0, |s|);
    case Some(k) =>
      assert s[k..k + 1] == [s[k]];
  }

  /** The first ':' of the pair is the one after the quoted name. */
  lemma ColonAfterName(pair: string, name: string)
    requires ':' !in name && |pair| > |name| + 2
    requires pair[0] == '\'' && pair[1..|name| + 1] == name && pair[|name| + 1] == '\'' && pair[|name| + 2] == ':'
    ensures IndexOf(pair, ":") == Some(|name| + 2)
  {
    var c := |name| + 2;
    assert MatchAt(pair, ":", c) by {
      assert pair[c..c + 1][0] == ':';
    }
    forall k | 0 <= k < c
      ensures pair[k] != ':'
    {
      if 1 <= k < c - 1 {
        assert pair[k] == pair[1..c - 1][k - 1];
      }
    }
    NoColonBefore(pair, c);
    IndexOfFirst(pair, ":", c);
  }

  lemma NoColonBefore(s: string, c: nat)
    requires c <= |s| && forall k :: 0 <= k < c ==> s[k] != ':'
    ensures forall k :: 0 <= k < c ==> !MatchAt(s, ":", k)
  {
    forall k | 0 <= k < c
      ensures !MatchAt(s, ":", k)
    {
      NoMatchAt(s, ":", k);
    }
  }

  /** A quoted name loses its quotes. */
  lemma UnquotedName(name: string)
    requires name != [] && name[0] != '\'' && name[|name| - 1] != '\''
    ensures TrimQuotes("'" + name + "'") == name
  {
    var s := "'" + name + "'";
    assert s[1..] == name + "'";
    assert (name + "'")[0] == name[0];
    assert TrimQuotesLeft(s) == name + "'";
    assert (name + "'")[..|name|] == name;
    assert TrimQuotesRight(name) == name;
  }

  /** A quoted name is not touched by stripping whitespace. */
  lemma TrimSpaceOfQuoted(s: string)
    requires |s| >= 1 && s[0] == '\'' && s[|s| - 1] == '\''
    ensures TrimSpace(GoWhitespace, s) == s
  {
  }

  /** A pair opening with a quoted name is cut right after the name, and
      its key is the name. */
  lemma QuotedKey(pair: string, name: string, rest: string)
    requires name != [] && name[0] != '\'' && name[|name| - 1] != '\'' && ':' !in name
    requires pair == "'" + name + "':" + rest
    ensures IndexOf(pair, ":") == Some(|name| + 2)
    ensures TrimQuotes(TrimSpace(GoWhitespace, pair[..|name| + 2])) == name
    ensures pair[|name| + 3..] == rest
  {
    var c := |name| + 2;
    assert pair[..c + 1] == "'" + name + "':";
    assert pair[1..c - 1] == pair[..c + 1][1..c - 1] == name;
    ColonAfterName(pair, name);
    assert pair[..c] == "'" + name + "'";
    TrimSpaceOfQuoted("'" + name + "'");
    UnquotedName(name);
  }

  /** A pair whose first ':' is at c, with the key and value it yields. */
  lemma FixPairAt(pair: string, c: nat, key: string, value: string, quote: string -> string)
    requires IndexOf(pair, ":") == Some(c)
    requires TrimQuotes(TrimSpace(GoWhitespace, pair[..c])) == key && TrimSpace(GoWhitespace, pair[c + 1..]) == value
    ensures FixPair(pair, quote) == Ok(quote(key) + ": " + FixValue(value, quote))
  {
  }

  /** A Python dictionary entry with a string value, 'name': 'text', becomes
      the JSON entry of the quoted name and the quoted text; the text may
      itself hold ':' since the pair is cut at its first one. */
  lemma PythonStringPair(name: string, text: string, quote: string -> string)
    requires name != [] && name[0] != '\'' && name[|name| - 1] != '\'' && ':' !in name
    ensures FixPair("'" + name + "': '" + text + "'", quote) == Ok(quote(name) + ": " + quote(text))
  {
    var pair := "'" + name + "': '" + text + "'";
    var value := "'" + text + "'";
    assert pair == "'" + name + "':" + (" " + value);
    QuotedKey(pair, name, " " + value);
    QuotedValue(value, text, quote);
    FixPairAt(pair, |name| + 2, name, value, quote);
  }

  /** A value in single quotes loses the space before it and is re-quoted. */
  lemma QuotedValue(value: string, text: string, quote: string -> string)
    requires value == "'" + text + "'"
    ensures TrimSpace(GoWhitespace, " " + value) == value && FixValue(value, quote) == quote(text)
  {
    assert TrimLeft(GoWhitespace, " " + value) == TrimLeft(GoWhitespace, value);
    TrimSpaceOfQuoted(value);
    assert value[1..|value| - 1] == text;
  }

  /** A None value, in any letter case, loses the space before it and
      becomes null. */
  lemma NoneValue(value: string, quote: string -> string)
    requires ToLower(value) == "none"
    ensures TrimSpace(GoWhitespace, " " + value) == value && FixValue(value, quote) == "null"
  {
    assert ToLower(value)[0] == 'n' && ToLower(value)[3] == 'e';
    assert !IsSpace(GoWhitespace, value[0]) && !IsSpace(GoWhitespace, value[3]) && value[0] != '\'';
    assert TrimLeft(GoWhitespace, " " + value) == TrimLeft(GoWhitespace, value) == value;
  }

  /** A Python None value, in any letter case, becomes null. */
  lemma PythonNonePair(name: string, value: string, quote: string -> string)
    requires name != [] && name[0] != '\'' && name[|name| - 1] != '\'' && ':' !in name
    requires ToLower(value) == "none"
    ensures FixPair("'" + name + "': " + value, quote) == Ok(quote(name) + ": null")
  {
    var pair := "'" + name + "': " + value;
    assert pair == "'" + name + "':" + (" " + value);
    QuotedKey(pair, name, " " + value);
    NoneValue(value, quote);
    FixPairAt(pair, |name| + 2, name, value, quote);
    NullEntry(quote(name));
  }

  lemma NullEntry(key: string)
    ensures key + ": " + "null" == key + ": null"
  {
  }

  // ----- fixJSONArray -----

  /** A match of `\{[^}]*\}`: an opening brace, no closing brace, and a
      closing brace. */
  predicate IsBraced(o: string)
  {
    |o| >= 2 && o[0] == '{' && o[|o| - 1] == '}' && forall k :: 0 <= k < |o| - 1 ==> o[k] != '}'
  }

  /** The successive non-overlapping matches of `\{[^}]*\}` from position i:
      from the first '{' to the first '}' after it, then again after that. */
  function BracedFrom(s: string, i: nat): (r: seq<string>)
    requires i <= |s|
    ensures forall m :: 0 <= m < |r| ==> IsBraced(r[m])
    decreases |s| - i
  {
    match IndexOf(s, "{", i)
    case None => []
    case Some(o) =>
      match IndexOf(s, "}", o + 1)
      case None => []
      case Some(c) =>
        BracedSlice(s, o, c);
        [s[o..c + 1]] + BracedFrom(s, c + 1)
  }

  /** Where `ch` does not occur as a one-character match, the character is
      not `ch`. */
  lemma NotAt(s: string, ch: char, from: nat, to: nat)
    requires to <= |s| && forall k :: from <= k < to ==> !MatchAt(s, [ch], k)
    ensures forall k :: from <= k < to ==> s[k] != ch
  {
    forall k | from <= k < to
      ensures s[k] != ch
    {
      assert !MatchAt(s, [ch], k);
      assert s[k..k + 1] == [s[k]];
    }
  }

  /** The text from the '{' found at o to the first '}' after it is a match. */
  lemma BracedSlice(s: string, o: nat, c: nat)
    requires o < c < |s| && MatchAt(s, "{", o) && MatchAt(s, "}", c)
    requires forall k :: o + 1 <= k < c ==> !MatchAt(s, "}", k)
    ensures IsBraced(s[o..c + 1])
  {
    assert s[o..o + 1] == [s[o]] && s[c..c + 1] == [s[c]];
    NotAt(s, '}', o + 1, c);
    var m := s[o..c + 1];
    forall j | 0 <= j < |m| - 1
      ensures m[j] != '}'
    {
      assert m[j] == s[o + j];
    }
  }

  /** There are no matches exactly when no '{' is followed, later, by a '}'. */
  lemma NoObjectsIff(s: string, i: nat)
    requires i <= |s|
    ensures BracedFrom(s, i) == [] <==>
              !exists o, c :: i <= o < c < |s| && s[o] == '{' && s[c] == '}'
  {
    match IndexOf(s, "{", i)
    case None =>
      NotAt(s, '{', i, |s|);
    case Some(o) =>
      NotAt(s, '{', i, o);
      assert s[o..o + 1] == [s[o]];
      match IndexOf(s, "}", o + 1)
      case None =>
        NotAt(s, '}', o + 1, |s|);
      case Some(c) =>
        assert s[c..c + 1] == [s[c]];
        assert i <= o < c < |s| && s[o] == '{' && s[c] == '}';
  }

  /** One match repaired as an object; an error names the match. */
  function FixMatch(obj: string, quote: string -> string): Result<string, ParseError>
  {
    match FixObject(obj, quote)
    case Err(e) => Err(BadObject(obj, e))
    case Ok(fixed) => Ok(fixed)
  }

  /** fixJSONArray as a value: the stripped input must be wrapped in
      brackets and hold at least one match; every match is repaired as an
      object and the results are joined with ", " inside brackets. */
  function FixArray(input: string, quote: string -> string): Result<string, ParseError>
  {
    var t := TrimSpace(GoWhitespace, input);
    if |t| < 2 || t[0] != '[' || t[|t| - 1] != ']' then Err(NotAnArray(t))
    else
      var matches := BracedFrom(t, 0);
      if matches == [] then Err(NoObjects(t))
      else match Traverse(matches, o => FixMatch(o, quote))
        case Err(e) => Err(e)
        case Ok(fixed) => Ok("[" + Join(fixed, ", ") + "]")
  }

  /** fixJSONArray: the stripped input must be wrapped in brackets and hold
      at least one match; the matches are then repaired in order. */
  method FixJSONArray(input: string, quote: string -> string) returns (r: Result<string, ParseError>)
    ensures r == FixArray(input, quote)
  {
    var t := TrimSpace(GoWhitespace, input);
    if |t| < 2 || t[0] != '[' || t[|t| - 1] != ']' {
      return Err(NotAnArray(t));
    }
    var matches := BracedFrom(t, 0);
    if |matches| == 0 {
      return Err(NoObjects(t));
    }
    var fixedObjects := FixMatches(matches, quote);
    if fixedObjects.Err? {
      return Err(fixedObjects.error);
    }
    r := Ok("[" + Join(fixedObjects.value, ", ") + "]");
  }

  /** The loop of fixJSONArray: the matches are repaired one by one; the
      first that fails ends the loop with its error. */
  method FixMatches(matches: seq<string>, quote: string -> string) returns (r: Result<seq<string>, ParseError>)
    ensures r == Traverse(matches, o => FixMatch(o, quote))
  {
    ghost var fix := o => FixMatch(o, quote);
    var fixedObjects: seq<string> := [];
    var i := 0;
    while i < |matches|
      invariant 0 <= i <= |matches|
      invariant Traverse(matches[..i], fix) == Ok(fixedObjects)
    {
      TraverseStep(matches, i, fix);
      var fixed := FixJSONObject(matches[i], quote);
      if fixed.Err? {
        TraverseErrSticks(matches, i + 1, fix);
        return Err(BadObject(matches[i], fixed.error));
      }
      fixedObjects := fixedObjects + [fixed.value];
      i := i + 1;
    }
    assert matches[..i] == matches;
    r := Ok(fixedObjects);
  }

  /** fixJSONArray succeeds exactly when the stripped input is wrapped in
      brackets, holds a '{' followed later by a '}', and every match is a
      valid object; it then gives a bracketed text. */
  lemma FixArraySpec(input: string, quote: string -> string)
    ensures var t := TrimSpace(GoWhitespace, input);
      FixArray(input, quote).Ok? <==>
        && |t| >= 2 && t[0] == '[' && t[|t| - 1] == ']'
        && (exists o, c :: 0 <= o < c < |t| && t[o] == '{' && t[c] == '}')
        && forall m :: 0 <= m < |BracedFrom(t, 0)| ==> FixObject(BracedFrom(t, 0)[m], quote).Ok?
    ensures FixArray(input, quote).Ok? ==>
              var v := FixArray(input, quote).value; |v| >= 2 && v[0] == '[' && v[|v| - 1] == ']'
  {
    var t := TrimSpace(GoWhitespace, input);
    NoObjectsIff(t, 0);
    FixMatchesOk(BracedFrom(t, 0), quote);
    var fixed := Traverse(BracedFrom(t, 0), o => FixMatch(o, quote));
    if fixed.Ok? {
      Enclosed('[', Join(fixed.value, ", "), ']');
    }
  }

  /** The matches are all repaired exactly when each is a valid object. */
  lemma FixMatchesOk(matches: seq<string>, quote: string -> string)
    ensures Traverse(matches, o => FixMatch(o, quote)).Ok? <==>
              forall m :: 0 <= m < |matches| ==> FixObject(matches[m], quote).Ok?
  {
    TraverseSpec(matches, o => FixMatch(o, quote));
  }

  // ----- ParseJSONToObject and ParseJSONArray -----

  /** ParseJSONToObject: an empty input is nil without error; otherwise the
      repaired object is decoded. */
  function ParseJSONToObject<T>(input: string, quote: string -> string, decode: string -> Option<T>): (r: Result<Option<T>, ParseError>)
    ensures input == "" ==> r == Ok(None)
    ensures input != "" ==> (r.Ok? <==> FixObject(input, quote).Ok? && decode(FixObject(input, quote).value).Some?)
    ensures input != "" && r.Ok? ==> r.value.Some?
  {
    if input == "" then Ok(None)
    else match FixObject(input, quote)
      case Err(e) => Err(e)
      case Ok(fixed) =>
        match decode(fixed)
        case None => Err(UnmarshalFailed)
        case Some(v) => Ok(Some(v))
  }

  /** ParseJSONArray: an empty input is a nil list, "[]" exactly an empty
      list; otherwise the repaired array is decoded. */
  function ParseJSONArray<T>(input: string, quote: string -> string, decode: string -> Option<seq<T>>): (r: Result<Option<seq<T>>, ParseError>)
    ensures input == "" ==> r == Ok(None)
    ensures input == "[]" ==> r == Ok(Some([]))
    ensures input != "" && input != "[]" ==>
              (r.Ok? <==> FixArray(input, quote).Ok? && decode(FixArray(input, quote).value).Some?)
    ensures input != "" && r.Ok? ==> r.value.Some?
  {
    if input == "" then Ok(None)
    else if input == "[]" then Ok(Some([]))
    else match FixArray(input, quote)
      case Err(e) => Err(e)
      case Ok(fixed) =>
        match decode(fixed)
        case None => Err(UnmarshalFailed)
        case Some(v) => Ok(Some(v))
  }

  /** Only the exact text "[]" is an empty list: with a space inside the
      brackets there is no object, which is an error. */
  lemma SpacedEmptyArrayFails<T>(quote: string -> string, decode: string -> Option<seq<T>>)
    ensures ParseJSONArray("[ ]", quote, decode) == Err(NoObjects("[ ]"))
  {
    assert TrimSpace(GoWhitespace, "[ ]") == "[ ]";
    NoObjectsIff("[ ]", 0);
  }

  // ----- parseBool, parseUint32, parseUint64 -----

  /** The simple case folding strings.EqualFold applies, onto lower case:
      ASCII letters, and the long s (U+017F) and Kelvin sign (U+212A), which
      fold to s and k. */
  function Fold(c: char): char
  {
    if 'A' <= c <= 'Z' then (c as int + 32) as char
    else if c == '\U{017F}' then 's'
    else if c == '\U{212A}' then 'k'
    else c
  }

  /** strings.EqualFold(s, word) for a word of lower-case ASCII letters. */
  predicate EqualFold(s: string, word: string)
  {
    |s| == |word| && forall k :: 0 <= k < |s| ==> Fold(s[k]) == word[k]
  }

  /** parseBool. */
  function ParseBool(str: string): Result<bool, ParseError>
  {
    if EqualFold(str, "true") then Ok(true)
    else if EqualFold(str, "false") then Ok(false)
    else Err(BadBool(str))
  }

  /** How Python writes a boolean into the CSV files. */
  function PythonBool(b: bool): string
  {
    if b then "True" else "False"
  }

  /** Python's booleans, and their lower-case forms, read back as written. */
  lemma ParseBoolOfPythonBool(b: bool)
    ensures ParseBool(PythonBool(b)) == Ok(b)
    ensures ParseBool(if b then "true" else "false") == Ok(b)
  {
    if !b {
      assert !EqualFold("False", "true") && !EqualFold("false", "true");
    }
  }

  /** Any text that reads as a boolean folds, letter by letter, onto that
      boolean's word; that includes "falſe" with a long s. */
  lemma ParseBoolFolds(str: string)
    ensures ParseBool(str).Ok? ==>
              var word := if ParseBool(str).value then "true" else "false";
              |str| == |word| && forall k :: 0 <= k < |str| ==> Fold(str[k]) == Fold(PythonBool(ParseBool(str).value)[k])
    ensures ParseBool("fal\U{017F}e") == Ok(false)
  {
    assert !EqualFold("fal\U{017F}e", "true");
  }

  /** strconv.ParseUint(str, 10, bits) after the empty-string guard: "" is
      0; otherwise decimal digits only, whose value is below the limit. */
  function ParseUint(str: string, limit: nat): (r: Result<nat, ParseError>)
    ensures r.Ok? ==> r.value < limit || (str == "" && r.value == 0)
  {
    if str == "" then Ok(0)
    else match ParseDigits(str)
      case Some(v) => if v < limit then Ok(v) else Err(BadUint(str))
      case None => Err(BadUint(str))
  }

  function ParseUint32(str: string): Result<u32, ParseError>
  {
    match ParseUint(str, U32_LIMIT)
    case Ok(v) => Ok(v)
    case Err(e) => Err(e)
  }

  function ParseUint64(str: string): Result<u64, ParseError>
  {
    match ParseUint(str, U64_LIMIT)
    case Ok(v) => Ok(v)
    case Err(e) => Err(e)
  }

  /** Every number below the limit reads back from its decimal form; from
      the limit on, the decimal form is refused. */
  lemma ParseUintOfNatToString(n: nat, limit: nat)
    ensures n < limit ==> ParseUint(NatToString(n), limit) == Ok(n)
    ensures n >= limit ==> ParseUint(NatToString(n), limit) == Err(BadUint(NatToString(n)))
  {
    DigitsValueOfNatToString(n);
  }

  /** parseUint32 and parseUint64 read back every value of their width, and
      refuse the first value past it. */
  lemma ParseUintWidths(a: u32, b: u64)
    ensures ParseUint32(NatToString(a)) == Ok(a)
    ensures ParseUint64(NatToString(b)) == Ok(b)
    ensures ParseUint32(NatToString(U32_LIMIT)).Err?
    ensures ParseUint64(NatToString(U64_LIMIT)).Err?
  {
    ParseUintOfNatToString(a, U32_LIMIT);
    ParseUintOfNatToString(b, U64_LIMIT);
    ParseUintOfNatToString(U32_LIMIT, U32_LIMIT);
    ParseUintOfNatToString(U64_LIMIT, U64_LIMIT);
  }

  // ----- hasNaNValues -----

  const COL_BUDGET: nat := 2
  const COL_GENRES: nat := 3
  const COL_ID: nat := 5
  const COL_OVERVIEW: nat := 9
  const COL_PRODUCTION_COUNTRIES: nat := 13
  const COL_RELEASE_DATE: nat := 14
  const COL_REVENUE: nat := 15
  const COL_SPOKEN_LANGUAGES: nat := 17
  const COL_TITLE: nat := 20

  /** The columns a movie row must fill, in the order they are checked. */
  const NOT_NA: seq<nat> := [COL_ID, COL_TITLE, COL_GENRES, COL_RELEASE_DATE, COL_OVERVIEW,
                             COL_PRODUCTION_COUNTRIES, COL_SPOKEN_LANGUAGES, COL_BUDGET, COL_REVENUE]

  predicate IsNa(value: string)
  {
    value == "" || value == "NaN"
  }

  /** hasNaNValues: whether some required column is empty or "NaN". The
      record must reach the title column, the last one looked at. */
  method HasNaNValues(record: seq<string>) returns (b: bool)
    requires |record| > COL_TITLE
    ensures b <==> exists k :: 0 <= k < |NOT_NA| && IsNa(record[NOT_NA[k]])
  {
    var i := 0;
    while i < |NOT_NA|
      invariant 0 <= i <= |NOT_NA|
      invariant forall k :: 0 <= k < i ==> !IsNa(record[NOT_NA[k]])
    {
      var value := record[NOT_NA[i]];
      if value == "" || value == "NaN" {
        return true;
      }
      i := i + 1;
    }
    return false;
  }
}
