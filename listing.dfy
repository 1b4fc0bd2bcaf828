/** Go's `for k, v := range m` over a map visits every entry once in an
    unspecified order; the model leaves that order open. */
module Listings {
  import opened Machine
  import opened Utils
  import opened Records

  /** `keys` and `values` list every entry of `m` exactly once, in some order. */
  ghost predicate Lists<K, V>(keys: seq<K>, values: seq<V>, m: map<K, V>)
  {
    && |keys| == |values| == |m|
    && (forall i :: 0 <= i < |keys| ==> keys[i] in m && values[i] == m[keys[i]])
    && (forall k :: k in m ==> k in keys)
    && (forall i, j :: 0 <= i < j < |keys| ==> keys[i] != keys[j])
  }

  /** A `for ... range` over a Go map: every entry is visited once, in an order
      the model leaves open. */
  method Listing<K, V>(m: map<K, V>) returns (keys: seq<K>, values: seq<V>)
    ensures Lists(keys, values, m)
  {
    keys, values := [], [];
    var remaining := m.Keys;
    while remaining != {}
      invariant remaining <= m.Keys
      invariant |keys| == |values| && |keys| + |remaining| == |m|
      invariant forall i :: 0 <= i < |keys| ==> keys[i] in m && keys[i] !in remaining && values[i] == m[keys[i]]
      invariant forall k :: k in m && k !in remaining ==> k in keys
      invariant forall i, j :: 0 <= i < j < |keys| ==> keys[i] != keys[j]
      decreases |remaining|
    {
      var k :| k in remaining;
      keys, values := keys + [k], values + [m[k]];
      remaining := remaining - {k};
    }
  }

  /** `list` holds one CountryBudget per entry of `totals`, in some order. */
  ghost predicate ListsCountries(list: seq<CountryBudget>, totals: map<Country, u64>)
  {
    Lists(Mapped(list, (cb: CountryBudget) => cb.country), Mapped(list, (cb: CountryBudget) => cb.budget), totals)
  }

  /** A list built pairwise from a listing of the map lists the map. */
  lemma PairedListsCountries(list: seq<CountryBudget>, keys: seq<Country>, values: seq<u64>, totals: map<Country, u64>)
    requires Lists(keys, values, totals)
    requires |list| == |keys|
    requires forall i :: 0 <= i < |list| ==> list[i] == CountryBudget(keys[i], values[i])
    ensures ListsCountries(list, totals)
  {
    assert Mapped(list, (cb: CountryBudget) => cb.country) == keys;
    assert Mapped(list, (cb: CountryBudget) => cb.budget) == values;
  }

  /** What ListsCountries says entry by entry: each element is an entry of the
      map, each entry is an element, and no country appears twice. */
  lemma {:induction false} ListsCountriesEntries(list: seq<CountryBudget>, totals: map<Country, u64>)
    requires ListsCountries(list, totals)
    ensures |list| == |totals|
    ensures forall i :: 0 <= i < |list| ==> list[i].country in totals && list[i].budget == totals[list[i].country]
    ensures forall c :: c in totals ==> CountryBudget(c, totals[c]) in list
    ensures forall p, q :: 0 <= p < q < |list| ==> list[p].country != list[q].country
  {
    var keys := Mapped(list, (cb: CountryBudget) => cb.country);
    forall c | c in totals
      ensures CountryBudget(c, totals[c]) in list
    {
      var k :| 0 <= k < |keys| && keys[k] == c;
      assert list[k] == CountryBudget(c, totals[c]);
    }
  }
}

