/** The generic slice helpers of server/common/utils.go. Each helper is a loop
    method proved against a specification function; the specification
    functions are defined on the last element, so that the loop invariant
    after i steps is the function applied to the first i items. */
module Utils {
  import opened Wrappers

  /** The items of `s` that satisfy `p`, in their original order. */
  function Filtered<T>(s: seq<T>, p: T -> bool): (r: seq<T>)
    ensures |r| <= |s|
  {
    if s == [] then []
    else Filtered(s[..|s| - 1], p) + (if p(s[|s| - 1]) then [s[|s| - 1]] else [])
  }

  /** Filtering distributes over concatenation, which is what keeps the
      relative order of the surviving items. */
  lemma {:induction false} FilteredAppend<T>(a: seq<T>, b: seq<T>, p: T -> bool)
    ensures Filtered(a + b, p) == Filtered(a, p) + Filtered(b, p)
    decreases |b|
  {
    if b == [] {
      assert a + b == a;
    } else {
      var b' := b[..|b| - 1];
      assert (a + b)[..|a + b| - 1] == a + b';
      FilteredAppend(a, b', p);
    }
  }

  /** Every item is kept as often as it occurs if it satisfies `p`, and never
      otherwise. */
  lemma {:induction false} FilteredCount<T>(s: seq<T>, p: T -> bool, x: T)
    ensures multiset(Filtered(s, p))[x] == if p(x) then multiset(s)[x] else 0
  {
    if s != [] {
      var s' := s[..|s| - 1];
      assert s == s' + [s[|s| - 1]];
      FilteredCount(s', p, x);
    }
  }

  lemma FilteredMembers<T>(s: seq<T>, p: T -> bool, x: T)
    ensures x in Filtered(s, p) <==> x in s && p(x)
  {
    FilteredCount(s, p, x);
    assert x in Filtered(s, p) <==> multiset(Filtered(s, p))[x] > 0;
    assert x in s <==> multiset(s)[x] > 0;
  }

  /** A predicate that holds everywhere filters nothing out. */
  lemma {:induction false} FilteredAll<T>(s: seq<T>, p: T -> bool)
    requires forall k :: 0 <= k < |s| ==> p(s[k])
    ensures Filtered(s, p) == s
  {
    if s != [] {
      FilteredAll(s[..|s| - 1], p);
      assert s[..|s| - 1] + [s[|s| - 1]] == s;
    }
  }

  /** Filtering with two predicates that agree on every item gives the same result. */
  lemma {:induction false} FilteredCongruent<T>(s: seq<T>, p: T -> bool, q: T -> bool)
    requires forall k :: 0 <= k < |s| ==> p(s[k]) == q(s[k])
    ensures Filtered(s, p) == Filtered(s, q)
  {
    if s != [] {
      FilteredCongruent(s[..|s| - 1], p, q);
    }
  }

  /** common.Filter. */
  method Filter<T>(slice: seq<T>, keep: T -> bool) returns (result: seq<T>)
    ensures result == Filtered(slice, keep)
  {
    result := [];
    for i := 0 to |slice|
      invariant result == Filtered(slice[..i], keep)
    {
      assert slice[..i + 1][..i] == slice[..i];
      if keep(slice[i]) {
        result := result + [slice[i]];
      }
    }
    assert slice[..|slice|] == slice;
  }

  /** The position of the earliest item satisfying `p`, if any. */
  function FirstIndex<T>(s: seq<T>, p: T -> bool): (r: Option<nat>)
    ensures r.None? <==> forall k :: 0 <= k < |s| ==> !p(s[k])
    ensures r.Some? ==> r.value < |s| && p(s[r.value]) && forall k :: 0 <= k < r.value ==> !p(s[k])
  {
    if s == [] then None
    else if p(s[0]) then Some(0)
    else match FirstIndex(s[1..], p)
      case None => None
      case Some(i) => Some(i + 1)
  }

  /** common.First: the Go reference to a copy of the item is an Option holding the item. */
  method First<T>(slice: seq<T>, keep: T -> bool) returns (r: Option<T>)
    ensures r.None? <==> FirstIndex(slice, keep).None?
    ensures r.Some? ==> r.value == slice[FirstIndex(slice, keep).value]
  {
    for i := 0 to |slice|
      invariant forall k :: 0 <= k < i ==> !keep(slice[k])
    {
      if keep(slice[i]) {
        return Some(slice[i]);
      }
    }
    return None;
  }

  /** `f` applied to every item, in order. */
  function Mapped<T, U>(s: seq<T>, f: T -> U): (r: seq<U>)
    ensures |r| == |s|
    ensures forall k :: 0 <= k < |s| ==> r[k] == f(s[k])
  {
    if s == [] then [] else Mapped(s[..|s| - 1], f) + [f(s[|s| - 1])]
  }

  /** Mapping distributes over concatenation. */
  lemma MappedAppend<T, U>(a: seq<T>, b: seq<T>, f: T -> U)
    ensures Mapped(a + b, f) == Mapped(a, f) + Mapped(b, f)
  {
    var l, r := Mapped(a + b, f), Mapped(a, f) + Mapped(b, f);
    assert |l| == |r|;
    forall k | 0 <= k < |l|
      ensures l[k] == r[k]
    {
      if k < |a| {
        assert (a + b)[k] == a[k];
      } else {
        assert (a + b)[k] == b[k - |a|];
      }
    }
  }

  /** common.Map. */
  method Map<T, U>(slice: seq<T>, mapper: T -> U) returns (result: seq<U>)
    ensures result == Mapped(slice, mapper)
  {
    result := [];
    for i := 0 to |slice|
      invariant result == Mapped(slice[..i], mapper)
    {
      assert slice[..i + 1][..i] == slice[..i];
      result := result + [mapper(slice[i])];
    }
    assert slice[..|slice|] == slice;
  }

  /** The arithmetic sum of a sequence of integers. */
  function Total(s: seq<int>): int
  {
    if s == [] then 0 else Total(s[..|s| - 1]) + s[|s| - 1]
  }

  lemma {:induction false} TotalAppend(a: seq<int>, b: seq<int>)
    ensures Total(a + b) == Total(a) + Total(b)
    decreases |b|
  {
    if b == [] {
      assert a + b == a;
    } else {
      assert (a + b)[..|a + b| - 1] == a + b[..|b| - 1];
      TotalAppend(a, b[..|b| - 1]);
    }
  }

  /** A sum of non-negative items is at least each of them. */
  lemma {:induction false} TotalBounds(s: seq<int>, k: nat)
    requires forall j :: 0 <= j < |s| ==> s[j] >= 0
    requires k < |s|
    ensures s[k] <= Total(s)
  {
    var last := |s| - 1;
    if k < last {
      TotalBounds(s[..last], k);
      TotalNonNegative(s[..last]);
    } else {
      TotalNonNegative(s[..last]);
    }
  }

  lemma {:induction false} TotalNonNegative(s: seq<int>)
    requires forall j :: 0 <= j < |s| ==> s[j] >= 0
    ensures Total(s) >= 0
  {
    if s != [] {
      TotalNonNegative(s[..|s| - 1]);
    }
  }

  /** common.Sum over an integer element type. */
  method Sum(slice: seq<int>) returns (sum: int)
    ensures sum == Total(slice)
  {
    sum := 0;
    for i := 0 to |slice|
      invariant sum == Total(slice[..i])
    {
      assert slice[..i + 1][..i] == slice[..i];
      sum := sum + slice[i];
    }
    assert slice[..|slice|] == slice;
  }

  /** In-order concatenation of the inner sequences. */
  function Concat<T>(ss: seq<seq<T>>): seq<T>
  {
    if ss == [] then [] else Concat(ss[..|ss| - 1]) + ss[|ss| - 1]
  }

  /** The sum of the inner lengths. */
  function TotalLength<T>(ss: seq<seq<T>>): nat
  {
    if ss == [] then 0 else TotalLength(ss[..|ss| - 1]) + |ss[|ss| - 1]|
  }

  lemma {:induction false} ConcatLength<T>(ss: seq<seq<T>>)
    ensures |Concat(ss)| == TotalLength(ss)
  {
    if ss != [] {
      ConcatLength(ss[..|ss| - 1]);
    }
  }

  lemma {:induction false} ConcatAppend<T>(a: seq<seq<T>>, b: seq<seq<T>>)
    ensures Concat(a + b) == Concat(a) + Concat(b)
    decreases |b|
  {
    if b == [] {
      assert a + b == a;
    } else {
      var init, last := b[..|b| - 1], b[|b| - 1];
      assert (a + b)[..|a + b| - 1] == a + init;
      calc {
        Concat(a + b);
        Concat(a + init) + last;
        { ConcatAppend(a, init); }
        (Concat(a) + Concat(init)) + last;
        { AppendAssoc(Concat(a), Concat(init), last); }
        Concat(a) + (Concat(init) + last);
      }
    }
  }

  lemma AppendAssoc<T>(x: seq<T>, y: seq<T>, z: seq<T>)
    ensures (x + y) + z == x + (y + z)
  {
  }

  /** An item occurs in the concatenation iff it occurs in some inner sequence. */
  lemma {:induction false} ConcatMembers<T>(ss: seq<seq<T>>, x: T)
    ensures x in Concat(ss) <==> exists i :: 0 <= i < |ss| && x in ss[i]
  {
    if ss != [] {
      var init := ss[..|ss| - 1];
      ConcatMembers(init, x);
      assert forall i :: 0 <= i < |init| ==> init[i] == ss[i];
      if x in ss[|ss| - 1] {
        assert x in Concat(ss);
      }
    }
  }

  /** common.Flatten. */
  method Flatten<T>(slices: seq<seq<T>>) returns (result: seq<T>)
    ensures result == Concat(slices)
  {
    result := [];
    for i := 0 to |slices|
      invariant result == Concat(slices[..i])
    {
      assert slices[..i + 1][..i] == slices[..i];
      result := result + slices[i];
    }
    assert slices[..|slices|] == slices;
  }
}
