/** String helpers shared by the modelled code: whitespace trimming, joining,
    decimal formatting and parsing, and splitting on a separator character
    that is only honoured in some scanner states. */
module Text {
  import opened Wrappers

  /** Whose notion of whitespace applies: Go's unicode.IsSpace (used by
      strings.TrimSpace) or Python's str.isspace (used by str.strip and
      str.split). */
  datatype Whitespace = GoWhitespace | PythonWhitespace

  /** Both languages count the ASCII blanks, NEL, no-break space and the
      Unicode space separators and line/paragraph separators; Python also
      counts the four information separators U+001C..U+001F. */
  predicate IsSpace(ws: Whitespace, c: char)
  {
    || c == ' ' || '\t' <= c <= '\r'
    || c == '\U{0085}' || c == '\U{00A0}' || c == '\U{1680}'
    || '\U{2000}' <= c <= '\U{200A}' || c == '\U{2028}' || c == '\U{2029}'
    || c == '\U{202F}' || c == '\U{205F}' || c == '\U{3000}'
    || (ws == PythonWhitespace && '\U{001C}' <= c <= '\U{001F}')
  }

  function TrimLeft(ws: Whitespace, s: string): (r: string)
    ensures |r| <= |s|
    ensures r != [] ==> !IsSpace(ws, r[0])
    ensures forall k :: 0 <= k < |s| - |r| ==> IsSpace(ws, s[k])
  {
    if s != [] && IsSpace(ws, s[0]) then TrimLeft(ws, s[1..]) else s
  }

  /** What TrimLeft leaves is a suffix of its input. */
  lemma {:induction false} TrimLeftSuffix(ws: Whitespace, s: string)
    ensures TrimLeft(ws, s) == s[|s| - |TrimLeft(ws, s)|..]
  {
    if s != [] && IsSpace(ws, s[0]) {
      TrimLeftSuffix(ws, s[1..]);
    }
  }

  function TrimRight(ws: Whitespace, s: string): (r: string)
    ensures |r| <= |s| && r == s[..|r|]
    ensures r != [] ==> !IsSpace(ws, r[|r| - 1])
    ensures forall k :: |r| <= k < |s| ==> IsSpace(ws, s[k])
  {
    if s != [] && IsSpace(ws, s[|s| - 1]) then TrimRight(ws, s[..|s| - 1]) else s
  }

  /** The longest infix of `s` that neither starts nor ends with whitespace. */
  function TrimSpace(ws: Whitespace, s: string): string
  {
    TrimRight(ws, TrimLeft(ws, s))
  }

  /** Trimming removes whitespace only, and all of it, from both ends. */
  lemma TrimSpaceInfix(ws: Whitespace, s: string)
    ensures TrimSpace(ws, s) != [] ==> !IsSpace(ws, TrimSpace(ws, s)[0]) && !IsSpace(ws, TrimSpace(ws, s)[|TrimSpace(ws, s)| - 1])
    ensures exists i, j ::
              && 0 <= i <= j <= |s| && TrimSpace(ws, s) == s[i..j]
              && (forall k :: 0 <= k < i ==> IsSpace(ws, s[k]))
              && (forall k :: j <= k < |s| ==> IsSpace(ws, s[k]))
  {
    var l := TrimLeft(ws, s);
    TrimLeftSuffix(ws, s);
    var r := TrimRight(ws, l);
    var i, j := |s| - |l|, |s| - |l| + |r|;
    assert r == s[i..j];
    forall k | j <= k < |s|
      ensures IsSpace(ws, s[k])
    {
      assert s[k] == l[k - i];
    }
  }

  /** Go's strings.Join / Python's sep.join. */
  function Join(parts: seq<string>, sep: string): string
  {
    if parts == [] then ""
    else if |parts| == 1 then parts[0]
    else parts[0] + sep + Join(parts[1..], sep)
  }

  lemma {:induction false} JoinSnoc(parts: seq<string>, x: string, sep: string)
    requires parts != []
    ensures Join(parts + [x], sep) == Join(parts, sep) + sep + x
  {
    if |parts| == 1 {
      assert parts + [x] == [parts[0], x];
    } else {
      assert (parts + [x])[1..] == parts[1..] + [x];
      JoinSnoc(parts[1..], x, sep);
    }
  }

  predicate IsDigit(c: char)
  {
    '0' <= c <= '9'
  }

  predicate IsDigits(s: string)
  {
    s != [] && forall k :: 0 <= k < |s| ==> IsDigit(s[k])
  }

  function DigitChar(d: nat): (c: char)
    requires d < 10
    ensures IsDigit(c) && c as int - '0' as int == d
  {
    ['0', '1', '2', '3', '4', '5', '6', '7', '8', '9'][d]
  }

  /** Python's str(n) / Go's strconv.Itoa for a natural number. */
  function NatToString(n: nat): (r: string)
    ensures IsDigits(r)
    ensures |r| > 1 ==> r[0] != '0'
    decreases n
  {
    if n < 10 then [DigitChar(n)] else NatToString(n / 10) + [DigitChar(n % 10)]
  }

  /** Python's str(i) / Go's strconv.Itoa for any integer. */
  function IntToString(i: int): (r: string)
    ensures r != []
    ensures i >= 0 ==> r == NatToString(i)
    ensures i < 0 ==> r == "-" + NatToString(-i)
  {
    if i >= 0 then NatToString(i) else "-" + NatToString(-i)
  }

  /** The value of a string of decimal digits, most significant first. */
  function DigitsValue(s: string): nat
    requires forall k :: 0 <= k < |s| ==> IsDigit(s[k])
  {
    if s == [] then 0
    else
      assert IsDigit(s[|s| - 1]);
      10 * DigitsValue(s[..|s| - 1]) + (s[|s| - 1] as int - '0' as int)
  }

  /** Formatting a number and reading it back gives the number. */
  lemma {:induction false} DigitsValueOfNatToString(n: nat)
    ensures DigitsValue(NatToString(n)) == n
    decreases n
  {
    if n >= 10 {
      var s := NatToString(n);
      assert s[..|s| - 1] == NatToString(n / 10);
      DigitsValueOfNatToString(n / 10);
    }
  }

  /** Distinct numbers have distinct decimal forms. */
  lemma NatToStringInjective(a: nat, b: nat)
    requires a != b
    ensures NatToString(a) != NatToString(b)
  {
    DigitsValueOfNatToString(a);
    DigitsValueOfNatToString(b);
  }

  /** The value of a string of decimal digits, or None for anything else
      (the empty string, a sign, any other character). */
  function ParseDigits(s: string): (r: Option<nat>)
    ensures r.Some? <==> IsDigits(s)
    ensures r.Some? ==> r.value == DigitsValue(s)
  {
    if IsDigits(s) then Some(DigitsValue(s)) else None
  }

  /** An optionally signed decimal integer: an optional '+' or '-' and then digits. */
  function ParseInt(s: string): (r: Option<int>)
    ensures s != [] && s[0] == '-' && IsDigits(s[1..]) ==> r == Some(-(DigitsValue(s[1..]) as int))
    ensures s != [] && s[0] == '+' && IsDigits(s[1..]) ==> r == Some(DigitsValue(s[1..]))
    ensures IsDigits(s) ==> r == Some(DigitsValue(s))
    ensures r.Some? ==> IsDigits(s) || (s != [] && (s[0] == '-' || s[0] == '+') && IsDigits(s[1..]))
  {
    if s != [] && s[0] == '-' then
      (match ParseDigits(s[1..]) case Some(n) => Some(-(n as int)) case None => None)
    else if s != [] && s[0] == '+' then
      (match ParseDigits(s[1..]) case Some(n) => Some(n) case None => None)
    else
      (match ParseDigits(s) case Some(n) => Some(n) case None => None)
  }

  /** Reading back a formatted integer gives the integer. */
  lemma ParseIntOfIntToString(i: int)
    ensures ParseInt(IntToString(i)) == Some(i)
  {
    if i >= 0 {
      DigitsValueOfNatToString(i);
    } else {
      var s := IntToString(i);
      assert s[1..] == NatToString(-i);
      DigitsValueOfNatToString(-i);
    }
  }

  /** The number of leading characters of `s` that are not whitespace. */
  function WordLength(ws: Whitespace, s: string): (n: nat)
    ensures n <= |s|
    ensures forall k :: 0 <= k < n ==> !IsSpace(ws, s[k])
    ensures n < |s| ==> IsSpace(ws, s[n])
  {
    if s == [] || IsSpace(ws, s[0]) then 0 else 1 + WordLength(ws, s[1..])
  }

  /** The maximal runs of non-whitespace characters of `s`, in order (Python's
      str.split() with no argument, Go's strings.Fields). */
  function Fields(ws: Whitespace, s: string): (r: seq<string>)
    ensures forall k :: 0 <= k < |r| ==> IsWord(ws, r[k])
    decreases |s|
  {
    var t := TrimLeft(ws, s);
    if t == [] then []
    else
      var w := WordLength(ws, t);
      assert IsWord(ws, t[..w]);
      [t[..w]] + Fields(ws, t[w..])
  }

  /** A non-empty run of non-whitespace characters. */
  predicate IsWord(ws: Whitespace, w: string)
  {
    w != [] && forall m :: 0 <= m < |w| ==> !IsSpace(ws, w[m])
  }

  function ToLowerChar(c: char): char
  {
    if 'A' <= c <= 'Z' then (c as int + 32) as char else c
  }

  /** ASCII lower-casing. */
  function ToLower(s: string): (r: string)
    ensures |r| == |s| && forall k :: 0 <= k < |s| ==> r[k] == ToLowerChar(s[k])
  {
    seq(|s|, k requires 0 <= k < |s| => ToLowerChar(s[k]))
  }

  /** `sub` occurs in `s` at position `k`. */
  predicate MatchAt(s: string, sub: string, k: nat)
  {
    k + |sub| <= |s| && s[k..k + |sub|] == sub
  }

  /** The index of the first occurrence of `sub` in `s` at or after `from`, if any. */
  function IndexOf(s: string, sub: string, from: nat := 0): (r: Option<nat>)
    requires from <= |s|
    ensures r.Some? ==> from <= r.value && MatchAt(s, sub, r.value)
    ensures r.Some? ==> forall k :: from <= k < r.value ==> !MatchAt(s, sub, k)
    ensures r.None? ==> forall k :: from <= k ==> !MatchAt(s, sub, k)
    decreases |s| - from
  {
    if from + |sub| > |s| then None
    else if MatchAt(s, sub, from) then Some(from)
    else IndexOf(s, sub, from + 1)
  }

  /** The first occurrence is the one with none before it. */
  lemma IndexOfFirst(s: string, sub: string, c: nat)
    requires MatchAt(s, sub, c) && forall k :: 0 <= k < c ==> !MatchAt(s, sub, k)
    ensures IndexOf(s, sub) == Some(c)
  {
  }

  /** `sub` does not occur at `k` when their first characters differ. */
  lemma NoMatchAt(s: string, sub: string, k: nat)
    requires k < |s| && |sub| > 0 && s[k] != sub[0]
    ensures !MatchAt(s, sub, k)
  {
    if k + |sub| <= |s| {
      assert s[k..k + |sub|][0] == s[k];
    }
  }

  // ----- Splitting on a separator honoured only in some scanner states -----

  /** `segs` with `c` put in front of its first segment. */
  function Prepend(c: string, segs: seq<string>): seq<string>
    requires segs != []
  {
    [c + segs[0]] + segs[1..]
  }

  lemma PrependEmpty(segs: seq<string>)
    requires segs != []
    ensures Prepend("", segs) == segs
  {
    assert "" + segs[0] == segs[0];
  }

  /** The raw pieces of `s` between the occurrences of `sep` met while `cut(state)`
      holds; the state advances with `next` on every other character. Separators
      are dropped, every other character (quotes, brackets) is kept, and the last
      piece is always present, possibly empty. */
  function Segments<S>(s: string, st: S, sep: char, cut: S -> bool, next: (S, char) -> S): (r: seq<string>)
    ensures r != []
  {
    if s == [] then [""]
    else if s[0] == sep && cut(st) then [""] + Segments(s[1..], st, sep, cut, next)
    else Prepend([s[0]], Segments(s[1..], next(st, s[0]), sep, cut, next))
  }

  /** Joining the pieces with the separator restores the input. */
  lemma {:induction false} JoinSegments<S>(s: string, st: S, sep: char, cut: S -> bool, next: (S, char) -> S)
    ensures Join(Segments(s, st, sep, cut, next), [sep]) == s
  {
    if s != [] {
      if s[0] == sep && cut(st) {
        JoinSegments(s[1..], st, sep, cut, next);
        assert s == [sep] + s[1..];
      } else {
        var rest := Segments(s[1..], next(st, s[0]), sep, cut, next);
        JoinSegments(s[1..], next(st, s[0]), sep, cut, next);
        if |rest| > 1 {
          assert Prepend([s[0]], rest)[1..] == rest[1..];
          assert Join(rest, [sep]) == rest[0] + [sep] + Join(rest[1..], [sep]);
        }
        assert s == [s[0]] + s[1..];
      }
    }
  }

  /** No piece contains a separator that was met in a cutting state: each piece is
      scanned to its end without cutting. Stated for the first piece; the others
      are first pieces of suffixes. */
  lemma {:induction false} SegmentsSepFree<S>(s: string, st: S, sep: char, cut: S -> bool, next: (S, char) -> S)
    ensures |Segments(s, st, sep, cut, next)[0]| <= |s|
    ensures Segments(s, st, sep, cut, next)[0] == s[..|Segments(s, st, sep, cut, next)[0]|]
  {
    if s != [] && !(s[0] == sep && cut(st)) {
      SegmentsSepFree(s[1..], next(st, s[0]), sep, cut, next);
    }
  }

  /** One scanner step, as the loops over characters take it: with `cur` the piece
      being built, the pieces of `s[i..]` seen from the whole string either close
      `cur` at a separator or extend it by one character. */
  lemma SegmentsStep<S>(s: string, i: nat, st: S, sep: char, cut: S -> bool, next: (S, char) -> S, cur: string)
    requires i < |s|
    ensures s[i] == sep && cut(st) ==>
      Prepend(cur, Segments(s[i..], st, sep, cut, next))
        == [cur] + Prepend("", Segments(s[i + 1..], st, sep, cut, next))
    ensures !(s[i] == sep && cut(st)) ==>
      Prepend(cur, Segments(s[i..], st, sep, cut, next))
        == Prepend(cur + [s[i]], Segments(s[i + 1..], next(st, s[i]), sep, cut, next))
  {
    assert s[i..][1..] == s[i + 1..];
    var t := s[i + 1..];
    if s[i] == sep && cut(st) {
      var r := Segments(t, st, sep, cut, next);
      assert "" + r[0] == r[0];
      assert Prepend("", r) == r;
      assert Segments(s[i..], st, sep, cut, next) == [""] + r;
      assert ([""] + r)[1..] == r;
      assert cur + "" == cur;
    } else {
      var r := Segments(t, next(st, s[i]), sep, cut, next);
      assert cur + ([s[i]] + r[0]) == (cur + [s[i]]) + r[0];
    }
  }

  /** The scanner run from position i with the piece `cur` under way and the
      pieces `done` already closed: the pieces of the whole string. */
  function Scan<S>(s: string, i: nat, st: S, cur: string, done: seq<string>,
                   sep: char, cut: S -> bool, next: (S, char) -> S): seq<string>
    requires i <= |s|
    decreases |s| - i
  {
    if i == |s| then done + [cur]
    else if s[i] == sep && cut(st) then Scan(s, i + 1, st, "", done + [cur], sep, cut, next)
    else Scan(s, i + 1, next(st, s[i]), cur + [s[i]], done, sep, cut, next)
  }

  /** Scanning from the start computes Segments. */
  lemma {:induction false} ScanSegments<S>(s: string, i: nat, st: S, cur: string, done: seq<string>,
                                           sep: char, cut: S -> bool, next: (S, char) -> S)
    requires i <= |s|
    ensures Scan(s, i, st, cur, done, sep, cut, next) == done + Prepend(cur, Segments(s[i..], st, sep, cut, next))
    decreases |s| - i
  {
    if i == |s| {
      assert s[i..] == [];
      assert cur + "" == cur;
    } else {
      SegmentsStep(s, i, st, sep, cut, next, cur);
      if s[i] == sep && cut(st) {
        ScanSegments(s, i + 1, st, "", done + [cur], sep, cut, next);
      } else {
        ScanSegments(s, i + 1, next(st, s[i]), cur + [s[i]], done, sep, cut, next);
      }
    }
  }

  lemma ScanFromStart<S>(s: string, st: S, sep: char, cut: S -> bool, next: (S, char) -> S)
    ensures Scan(s, 0, st, "", [], sep, cut, next) == Segments(s, st, sep, cut, next)
  {
    ScanSegments(s, 0, st, "", [], sep, cut, next);
    assert s[0..] == s;
    PrependEmpty(Segments(s, st, sep, cut, next));
  }
}
