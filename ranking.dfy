/** The final reducer's top-k answers (calculateTop5Countries and
    calculateTop10Actors in server/final-reducer/final-reducer.go): list the
    map's entries, sort them by a key, largest first, pad with the last one,
    keep the first k. */
module Ranking {
  import opened Machine
  import opened Utils
  import opened Records
  import opened Listings

  // ----- Sorting by a key, largest first -----

  /** Keys never increase along `s`. */
  predicate Descending<T>(s: seq<T>, key: T -> int)
  {
    forall p, q :: 0 <= p < q < |s| ==> key(s[p]) >= key(s[q])
  }

  /** `s[..i+1]` is in order except possibly at position j. */
  predicate SortedExcept<T>(s: seq<T>, key: T -> int, j: nat, i: nat)
    requires i < |s|
  {
    forall p, q :: 0 <= p < q <= i && p != j && q != j ==> key(s[p]) >= key(s[q])
  }

  /** The entry at j has a larger key than every entry it has moved past. */
  predicate Dominates<T>(s: seq<T>, key: T -> int, j: nat, i: nat)
    requires j <= i < |s|
  {
    forall q :: j < q <= i ==> key(s[q]) < key(s[j])
  }

  function Swapped<T>(s: seq<T>, j: nat): (r: seq<T>)
    requires 0 < j < |s|
    ensures |r| == |s| && multiset(r) == multiset(s)
    ensures r[j - 1] == s[j] && r[j] == s[j - 1]
    ensures forall k :: 0 <= k < |s| && k != j - 1 && k != j ==> r[k] == s[k]
  {
    s[j - 1 := s[j]][j := s[j - 1]]
  }

  /** Moving an entry one place left past a smaller one keeps the insertion
      step's invariant. */
  lemma SwapKeepsOrder<T>(s: seq<T>, key: T -> int, j: nat, i: nat)
    requires 0 < j <= i < |s|
    requires SortedExcept(s, key, j, i) && Dominates(s, key, j, i)
    requires key(s[j - 1]) < key(s[j])
    ensures SortedExcept(Swapped(s, j), key, j - 1, i) && Dominates(Swapped(s, j), key, j - 1, i)
  {
  }

  /** Once the entry has stopped moving, the prefix is in order. */
  lemma InsertionDone<T>(s: seq<T>, key: T -> int, j: nat, i: nat)
    requires j <= i < |s|
    requires SortedExcept(s, key, j, i) && Dominates(s, key, j, i)
    requires j == 0 || key(s[j - 1]) >= key(s[j])
    ensures Descending(s[..i + 1], key)
  {
  }

  /** `sort.Slice` with a "greater than" comparison: the array ends up as a
      permutation of its old contents, largest key first. Go's sort is not
      stable and neither does this contract say anything about the order of
      equal keys. */
  method SortDescending<T>(a: array<T>, key: T -> int)
    modifies a
    ensures Descending(a[..], key)
    ensures multiset(a[..]) == multiset(old(a[..]))
  {
    if a.Length == 0 {
      return;
    }
    var i := 1;
    while i < a.Length
      invariant 1 <= i <= a.Length
      invariant Descending(a[..i], key)
      invariant multiset(a[..]) == multiset(old(a[..]))
    {
      InsertLeft(a, key, i);
      i := i + 1;
    }
    assert a[..a.Length] == a[..];
  }

  /** One insertion step: the entry at i moves left past every smaller key,
      so the first i + 1 entries end up in order. */
  method InsertLeft<T>(a: array<T>, key: T -> int, i: nat)
    requires i < a.Length && Descending(a[..i], key)
    modifies a
    ensures Descending(a[..i + 1], key)
    ensures multiset(a[..]) == multiset(old(a[..]))
  {
    var j := i;
    while j > 0 && key(a[j - 1]) < key(a[j])
      invariant 0 <= j <= i
      invariant SortedExcept(a[..], key, j, i) && Dominates(a[..], key, j, i)
      invariant multiset(a[..]) == multiset(old(a[..]))
    {
      SwapKeepsOrder(a[..], key, j, i);
      ghost var before := a[..];
      a[j - 1], a[j] := a[j], a[j - 1];
      assert a[..] == Swapped(before, j);
      j := j - 1;
    }
    InsertionDone(a[..], key, j, i);
  }

  /** What the top-k computations promise. With no entries, no answer. With at
      least k entries, k of them, largest first, and every entry left out has
      a key no larger than the last one kept. With fewer, all of them largest
      first, then the last one repeated up to k. */
  ghost predicate IsTopK<T>(top: seq<T>, items: seq<T>, key: T -> int, k: nat)
    requires k > 0
  {
    if items == [] then top == []
    else
      && |top| == k
      && Descending(top, key)
      && (|items| >= k ==>
            && multiset(top) <= multiset(items)
            && (forall x :: x in multiset(items) - multiset(top) ==> key(x) <= key(top[k - 1])))
      && (|items| < k ==>
            && multiset(top[..|items|]) == multiset(items)
            && (forall i :: |items| <= i < k ==> top[i] == top[|items| - 1]))
  }

  /** The entries left out of a sorted list's prefix have keys no larger than
      the prefix's last. */
  lemma DroppedAreSmaller<T>(s: seq<T>, key: T -> int, k: nat, x: T)
    requires Descending(s, key) && 0 < k <= |s|
    requires x in multiset(s) - multiset(s[..k])
    ensures key(x) <= key(s[k - 1])
  {
    assert s == s[..k] + s[k..];
    assert multiset(s) == multiset(s[..k]) + multiset(s[k..]);
    assert x in multiset(s[k..]);
    var j :| 0 <= j < |s[k..]| && s[k..][j] == x;
    assert s[k + j] == x;
  }

  /** Appends copies of the last entry until there are at least k. */
  method PadWithLast<T>(s: seq<T>, k: nat) returns (r: seq<T>)
    requires s != []
    ensures |r| == if |s| >= k then |s| else k
    ensures r[..|s|] == s
    ensures forall i :: |s| <= i < |r| ==> r[i] == s[|s| - 1]
  {
    r := s;
    while |r| < k
      invariant |s| <= |r| && (|r| > k ==> r == s)
      invariant r[..|s|] == s
      invariant forall i :: |s| <= i < |r| ==> r[i] == s[|s| - 1]
    {
      var last := r[|r| - 1];
      r := r + [last];
    }
  }

  /** A sorted permutation of the entries, padded and cut to k, is a top k. */
  lemma PaddedSortedIsTopK<T>(items: seq<T>, sorted: seq<T>, padded: seq<T>, key: T -> int, k: nat)
    requires k > 0 && items != []
    requires Descending(sorted, key) && multiset(sorted) == multiset(items)
    requires |padded| == (if |sorted| >= k then |sorted| else k) && padded[..|sorted|] == sorted
    requires forall i :: |sorted| <= i < |padded| ==> padded[i] == sorted[|sorted| - 1]
    ensures IsTopK(padded[..k], items, key, k)
  {
    assert |sorted| == |items| by {
      assert |multiset(sorted)| == |multiset(items)|;
    }
    if |items| >= k {
      assert padded == sorted;
      SortedPrefixIsTopK(items, sorted, key, k);
    } else {
      PaddedIsTopK(items, sorted, padded, key, k);
    }
  }

  /** With at least k entries, the first k of a sorted permutation are a top k. */
  lemma SortedPrefixIsTopK<T>(items: seq<T>, sorted: seq<T>, key: T -> int, k: nat)
    requires 0 < k <= |items| == |sorted|
    requires Descending(sorted, key) && multiset(sorted) == multiset(items)
    ensures IsTopK(sorted[..k], items, key, k)
  {
    var top := sorted[..k];
    forall x | x in multiset(items) - multiset(top)
      ensures key(x) <= key(top[k - 1])
    {
      DroppedAreSmaller(sorted, key, k, x);
    }
    assert sorted == top + sorted[k..];
    assert multiset(sorted) == multiset(top) + multiset(sorted[k..]);
  }

  /** With fewer than k entries, a sorted permutation padded with its last
      entry and cut to k is a top k. */
  lemma PaddedIsTopK<T>(items: seq<T>, sorted: seq<T>, padded: seq<T>, key: T -> int, k: nat)
    requires 0 < |items| == |sorted| < k
    requires Descending(sorted, key) && multiset(sorted) == multiset(items)
    requires |padded| == k && padded[..|sorted|] == sorted
    requires forall i :: |sorted| <= i < |padded| ==> padded[i] == sorted[|sorted| - 1]
    ensures IsTopK(padded[..k], items, key, k)
  {
    var top := padded[..k];
    assert top == padded;
    forall p, q | 0 <= p < q < k
      ensures key(top[p]) >= key(top[q])
    {
      if q >= |items| {
        if p < |items| {
          assert top[p] == sorted[p] && top[q] == sorted[|items| - 1];
        }
      } else {
        assert top[p] == sorted[p] && top[q] == sorted[q];
      }
    }
  }

  /** Sort the entries, pad by repeating the last until there are k, keep k. */
  method TopK<T>(items: seq<T>, key: T -> int, k: nat) returns (top: seq<T>)
    requires k > 0
    ensures IsTopK(top, items, key, k)
  {
    if |items| == 0 {
      return [];
    }
    var a := new T[|items|](i requires 0 <= i < |items| => items[i]);
    assert a[..] == items;
    SortDescending(a, key);
    var counts := PadWithLast(a[..], k);
    PaddedSortedIsTopK(items, a[..], counts, key, k);
    top := counts[..k];
  }

  // ----- The answers -----

  /** Every entry of a top k is one of the entries. */
  lemma TopKMembers<T>(top: seq<T>, items: seq<T>, key: T -> int, k: nat, i: nat)
    requires k > 0 && IsTopK(top, items, key, k) && i < |top|
    ensures top[i] in items
  {
    if |items| >= k {
      assert top[i] in multiset(top);
    } else if i < |items| {
      assert top[i] in multiset(top[..|items|]);
    } else {
      assert top[|items| - 1] in multiset(top[..|items|]);
    }
  }

  /** An entry left out of a top k of at least k entries is no larger than its last. */
  lemma TopKOmitted<T>(top: seq<T>, items: seq<T>, key: T -> int, k: nat, x: T)
    requires k > 0 && IsTopK(top, items, key, k) && |items| >= k
    requires x in items && x !in top
    ensures key(x) <= key(top[k - 1])
  {
    assert x in multiset(items) - multiset(top);
  }

  /** A top k of at least k pairwise distinct entries repeats none. */
  lemma TopKDistinct<T>(top: seq<T>, items: seq<T>, key: T -> int, k: nat, i: nat, j: nat)
    requires k > 0 && IsTopK(top, items, key, k) && |items| >= k
    requires forall p, q :: 0 <= p < q < |items| ==> items[p] != items[q]
    requires i < j < k
    ensures top[i] != top[j]
  {
    if top[i] == top[j] {
      var x := top[i];
      assert top == top[..i] + [x] + top[i + 1..j] + [x] + top[j + 1..];
      assert multiset(top)[x] >= 2;
      DistinctCount(items, x);
      assert false;
    }
  }

  lemma {:induction false} DistinctCount<T>(s: seq<T>, x: T)
    requires forall p, q :: 0 <= p < q < |s| ==> s[p] != s[q]
    ensures multiset(s)[x] <= 1
  {
    if s != [] {
      var init, last := s[..|s| - 1], s[|s| - 1];
      assert s == init + [last];
      DistinctCount(init, x);
      if last == x {
        assert x !in init;
      }
    }
  }

  function BudgetKey(cb: CountryBudget): int
  {
    cb.budget
  }

  function AmountKey(a: ActorMoviesAmount): int
  {
    a.moviesAmount
  }

  /** The first loop of calculateTop5Countries: one CountryBudget per entry of
      the map, in map order. */
  method CountryEntries(countries: map<Country, u64>) returns (counts: seq<CountryBudget>)
    ensures ListsCountries(counts, countries) && |counts| == |countries|
    ensures forall i :: 0 <= i < |counts| ==> counts[i].country in countries && counts[i].budget == countries[counts[i].country]
    ensures forall c :: c in countries ==> CountryBudget(c, countries[c]) in counts
    ensures forall p, q :: 0 <= p < q < |counts| ==> counts[p].country != counts[q].country
  {
    var keys, values := Listing(countries);
    counts := [];
    for i := 0 to |keys|
      invariant |counts| == i
      invariant forall j :: 0 <= j < i ==> counts[j] == CountryBudget(keys[j], values[j])
    {
      counts := counts + [CountryBudget(keys[i], values[i])];
    }
    PairedListsCountries(counts, keys, values, countries);
    ListsCountriesEntries(counts, countries);
  }

  /** calculateTop5Countries: the five countries with the largest totals,
      largest first; none for no countries; with fewer than five, the last is
      repeated. */
  method CalculateTop5Countries(countries: map<Country, u64>) returns (top: seq<CountryBudget>)
    ensures countries == map[] ==> top == []
    ensures countries != map[] ==> |top| == 5 && Descending(top, BudgetKey)
    ensures forall i :: 0 <= i < |top| ==> top[i].country in countries && top[i].budget == countries[top[i].country]
    ensures |countries| >= 5 ==>
              && (forall i, j :: 0 <= i < j < 5 ==> top[i].country != top[j].country)
              && (forall c :: c in countries && (forall i :: 0 <= i < 5 ==> top[i].country != c) ==>
                    countries[c] <= top[4].budget)
    ensures exists list :: ListsCountries(list, countries) && IsTopK(top, list, BudgetKey, 5)
  {
    var counts := CountryEntries(countries);
    if |countries| == 0 {
      assert counts == [];
      assert IsTopK([], counts, BudgetKey, 5);
      return [];
    }
    top := TopK(counts, BudgetKey, 5);
    assert ListsCountries(counts, countries) && IsTopK(top, counts, BudgetKey, 5);
    TopCountries(top, counts, countries);
  }

  /** What a top 5 of a map's entries says about the map's countries. */
  lemma TopCountries(top: seq<CountryBudget>, counts: seq<CountryBudget>, countries: map<Country, u64>)
    requires counts != [] && |counts| == |countries| && IsTopK(top, counts, BudgetKey, 5)
    requires forall i :: 0 <= i < |counts| ==> counts[i].country in countries && counts[i].budget == countries[counts[i].country]
    requires forall c :: c in countries ==> CountryBudget(c, countries[c]) in counts
    requires forall p, q :: 0 <= p < q < |counts| ==> counts[p] != counts[q]
    ensures forall i :: 0 <= i < |top| ==> top[i].country in countries && top[i].budget == countries[top[i].country]
    ensures |countries| >= 5 ==>
              && (forall i, j :: 0 <= i < j < 5 ==> top[i].country != top[j].country)
              && (forall c :: c in countries && (forall i :: 0 <= i < 5 ==> top[i].country != c) ==>
                    countries[c] <= top[4].budget)
  {
    forall i | 0 <= i < |top|
      ensures top[i] in counts
    {
      TopKMembers(top, counts, BudgetKey, 5, i);
    }
    if |countries| >= 5 {
      forall i, j | 0 <= i < j < 5
        ensures top[i].country != top[j].country
      {
        TopKDistinct(top, counts, BudgetKey, 5, i, j);
        assert top[i] in counts && top[j] in counts;
      }
      forall c | c in countries && (forall i :: 0 <= i < 5 ==> top[i].country != c)
        ensures countries[c] <= top[4].budget
      {
        TopKOmitted(top, counts, BudgetKey, 5, CountryBudget(c, countries[c]));
      }
    }
  }

  /** calculateTop10Actors: the ten actors with the most movies, largest
      first; none for no actors; with fewer than ten, the last is repeated. */
  method CalculateTop10Actors(actors: map<string, ActorMoviesAmount>) returns (top: seq<ActorMoviesAmount>)
    ensures actors == map[] ==> top == []
    ensures actors != map[] ==> |top| == 10 && Descending(top, AmountKey)
    ensures forall i :: 0 <= i < |top| ==> top[i] in actors.Values
    ensures |actors| >= 10 && (forall id :: id in actors ==> actors[id].actorId == id) ==>
              forall i, j :: 0 <= i < j < 10 ==> top[i].actorId != top[j].actorId
    ensures |actors| >= 10 ==>
              (forall a :: a in actors.Values && a !in top ==> a.moviesAmount <= top[9].moviesAmount)
    ensures exists ids, list :: Lists(ids, list, actors) && IsTopK(top, list, AmountKey, 10)
  {
    var ids, actorsSlice := Listing(actors);
    if |actors| == 0 {
      return [];
    }
    top := TopK(actorsSlice, AmountKey, 10);
    TopActors(top, ids, actorsSlice, actors);
  }

  /** What a top 10 of a map's values says about the map's actors. */
  lemma TopActors(top: seq<ActorMoviesAmount>, ids: seq<string>, actorsSlice: seq<ActorMoviesAmount>,
                  actors: map<string, ActorMoviesAmount>)
    requires actorsSlice != [] && Lists(ids, actorsSlice, actors) && IsTopK(top, actorsSlice, AmountKey, 10)
    ensures forall i :: 0 <= i < |top| ==> top[i] in actors.Values
    ensures |actors| >= 10 && (forall id :: id in actors ==> actors[id].actorId == id) ==>
              forall i, j :: 0 <= i < j < 10 ==> top[i].actorId != top[j].actorId
    ensures |actors| >= 10 ==>
              (forall a :: a in actors.Values && a !in top ==> a.moviesAmount <= top[9].moviesAmount)
  {
    forall i | 0 <= i < |top|
      ensures top[i] in actors.Values
    {
      TopKMembers(top, actorsSlice, AmountKey, 10, i);
      var k :| 0 <= k < |actorsSlice| && actorsSlice[k] == top[i];
      assert actors[ids[k]] == top[i];
    }
    if |actors| >= 10 && (forall id :: id in actors ==> actors[id].actorId == id) {
      assert forall p :: 0 <= p < |actorsSlice| ==> actorsSlice[p].actorId == ids[p];
      forall i, j | 0 <= i < j < 10
        ensures top[i].actorId != top[j].actorId
      {
        TopKDistinct(top, actorsSlice, AmountKey, 10, i, j);
        TopKMembers(top, actorsSlice, AmountKey, 10, i);
        TopKMembers(top, actorsSlice, AmountKey, 10, j);
      }
    }
    if |actors| >= 10 {
      forall a | a in actors.Values && a !in top
        ensures a.moviesAmount <= top[9].moviesAmount
      {
        var id :| id in actors && actors[id] == a;
        var k :| 0 <= k < |ids| && ids[k] == id;
        assert actorsSlice[k] == a;
        TopKOmitted(top, actorsSlice, AmountKey, 10, a);
      }
    }
  }
}
