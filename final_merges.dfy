/** The final reducer's merge closures for queries 2 and 4
    (server/final-reducer/final-reducer.go): partial results from the
    reducers are added into a per-client map, with Go's fixed-width wrap-around. */
module FinalMerges {
  import opened Wrappers
  import opened Machine
  import opened Records

  // ----- Query 2: budgets per country -----

  /** The Q2 merge: each partial total is added to its country's running
      uint64 total, a missing country starting at zero. */
  function MergedCountries(m: map<Country, u64>, data: seq<CountryBudget>): map<Country, u64>
  {
    if data == [] then m
    else
      var r := MergedCountries(m, data[..|data| - 1]);
      var cb := data[|data| - 1];
      r[cb.country := AddU64(if cb.country in r then r[cb.country] else 0, cb.budget)]
  }

  /** The arithmetic sum of the partial totals for country `c`. */
  function PartialBudgets(data: seq<CountryBudget>, c: Country): nat
  {
    if data == [] then 0
    else PartialBudgets(data[..|data| - 1], c) + if data[|data| - 1].country == c then data[|data| - 1].budget else 0
  }

  /** After merging, a country has a total exactly when it had one or occurs in
      the data. */
  lemma {:induction false} MergedCountriesKeys(m: map<Country, u64>, data: seq<CountryBudget>, c: Country)
    ensures c in MergedCountries(m, data) <==> c in m || exists k :: 0 <= k < |data| && data[k].country == c
  {
    if data != [] {
      var init := data[..|data| - 1];
      MergedCountriesKeys(m, init, c);
      if exists k :: 0 <= k < |init| && init[k].country == c {
        var k :| 0 <= k < |init| && init[k].country == c;
        assert data[k] == init[k];
      }
      if exists k :: 0 <= k < |data| && data[k].country == c {
        var k :| 0 <= k < |data| && data[k].country == c;
        if k < |init| {
          assert init[k] == data[k];
        }
      }
    }
  }

  /** A country's merged total is its old total (zero if none) plus its
      partial totals, modulo 2^64. */
  lemma {:induction false} MergedCountriesTotals(m: map<Country, u64>, data: seq<CountryBudget>, c: Country)
    requires c in MergedCountries(m, data)
    ensures MergedCountries(m, data)[c] == ((if c in m then m[c] else 0) + PartialBudgets(data, c)) % U64_LIMIT
  {
    var base := if c in m then m[c] else 0;
    if data == [] {
      SmallMod64(base);
    } else {
      var init, cb := data[..|data| - 1], data[|data| - 1];
      var r := MergedCountries(m, init);
      var x := base + PartialBudgets(init, c);
      MergedCountriesLast(m, data, c);
      if cb.country != c {
        MergedCountriesTotals(m, init, c);
        assert base + PartialBudgets(data, c) == x;
      } else if c in r {
        MergedCountriesTotals(m, init, c);
        WrapStep64(x, r[c], cb.budget);
        assert base + PartialBudgets(data, c) == x + cb.budget;
      } else {
        assert MergedCountries(m, data)[c] == cb.budget;
        MergedCountriesKeys(m, init, c);
        PartialBudgetsAbsent(init, c);
        assert base + PartialBudgets(data, c) == cb.budget;
        SmallMod64(cb.budget);
      }
    }
  }

  /** What the last partial result does to country `c`'s total and sums. */
  lemma MergedCountriesLast(m: map<Country, u64>, data: seq<CountryBudget>, c: Country)
    requires data != []
    ensures var init, cb := data[..|data| - 1], data[|data| - 1];
            var r := MergedCountries(m, init);
            && PartialBudgets(data, c) == PartialBudgets(init, c) + (if cb.country == c then cb.budget else 0)
            && (cb.country != c ==> (c in MergedCountries(m, data) <==> c in r))
            && (cb.country != c && c in r ==> MergedCountries(m, data)[c] == r[c])
            && (cb.country == c ==> MergedCountries(m, data)[c] == AddU64(if c in r then r[c] else 0, cb.budget))
  {
  }

  lemma {:induction false} PartialBudgetsAbsent(data: seq<CountryBudget>, c: Country)
    requires forall k :: 0 <= k < |data| ==> data[k].country != c
    ensures PartialBudgets(data, c) == 0
  {
    if data != [] {
      PartialBudgetsAbsent(data[..|data| - 1], c);
    }
  }

  /** Merging two batches one after the other is merging their concatenation:
      the final totals do not depend on how the partial results were batched. */
  lemma {:induction false} MergedCountriesAppend(m: map<Country, u64>, a: seq<CountryBudget>, b: seq<CountryBudget>)
    ensures MergedCountries(MergedCountries(m, a), b) == MergedCountries(m, a + b)
  {
    if b != [] {
      assert (a + b)[..|a + b| - 1] == a + b[..|b| - 1];
      MergedCountriesAppend(m, a, b[..|b| - 1]);
    } else {
      assert a + b == a;
    }
  }

  /** The Q2 processing closure's loop over the batch. */
  method MergeQ2(countries: map<Country, u64>, data: seq<CountryBudget>) returns (r: map<Country, u64>)
    ensures r == MergedCountries(countries, data)
  {
    r := countries;
    for i := 0 to |data|
      invariant r == MergedCountries(countries, data[..i])
    {
      assert data[..i + 1][..i] == data[..i];
      var countryBudget := data[i];
      r := r[countryBudget.country := AddU64(if countryBudget.country in r then r[countryBudget.country] else 0, countryBudget.budget)];
    }
    assert data[..|data|] == data;
  }

  // ----- Query 4: movie counts per actor -----

  /** The Q4 merge: an actor seen for the first time is stored as received; a
      known actor keeps its entry and adds to its uint32 movie count. */
  function MergedActors(m: map<string, ActorMoviesAmount>, data: seq<ActorMoviesAmount>): map<string, ActorMoviesAmount>
  {
    if data == [] then m
    else
      var r := MergedActors(m, data[..|data| - 1]);
      var a := data[|data| - 1];
      if a.actorId !in r then r[a.actorId := a]
      else r[a.actorId := r[a.actorId].(moviesAmount := AddU32(r[a.actorId].moviesAmount, a.moviesAmount))]
  }

  /** The arithmetic sum of the partial counts for actor `id`. */
  function PartialAmounts(data: seq<ActorMoviesAmount>, id: string): nat
  {
    if data == [] then 0
    else PartialAmounts(data[..|data| - 1], id) + if data[|data| - 1].actorId == id then data[|data| - 1].moviesAmount else 0
  }

  /** The first partial result for actor `id`, if any. */
  function FirstOfActor(data: seq<ActorMoviesAmount>, id: string): (r: Option<ActorMoviesAmount>)
    ensures r.Some? <==> exists k :: 0 <= k < |data| && data[k].actorId == id
    ensures r.Some? ==> r.value in data && r.value.actorId == id
  {
    if data == [] then None
    else
      var init := data[..|data| - 1];
      var f := FirstOfActor(init, id);
      assert forall k :: 0 <= k < |init| ==> init[k] == data[k];
      if f.Some? then f else if data[|data| - 1].actorId == id then Some(data[|data| - 1]) else None
  }

  /** After merging, an actor has an entry exactly when it had one or occurs in
      the data. */
  lemma {:induction false} MergedActorsKeys(m: map<string, ActorMoviesAmount>, data: seq<ActorMoviesAmount>, id: string)
    ensures id in MergedActors(m, data) <==> id in m || FirstOfActor(data, id).Some?
  {
    if data != [] {
      MergedActorsKeys(m, data[..|data| - 1], id);
    }
  }

  /** A merged entry keeps the ID and name of the actor's old entry, or else of
      its first partial result; its count is the old count (zero if none) plus
      the partial counts, modulo 2^32. */
  lemma {:induction false} MergedActorsEntry(m: map<string, ActorMoviesAmount>, data: seq<ActorMoviesAmount>, id: string)
    requires id in m || FirstOfActor(data, id).Some?
    ensures id in MergedActors(m, data)
    ensures var e := MergedActors(m, data)[id];
            var first := if id in m then m[id] else FirstOfActor(data, id).value;
            && e.actorId == first.actorId && e.actorName == first.actorName
            && e.moviesAmount == ((if id in m then m[id].moviesAmount else 0) + PartialAmounts(data, id)) % U32_LIMIT
  {
    MergedActorsKeys(m, data, id);
    var base := if id in m then m[id].moviesAmount else 0;
    if data != [] {
      var init, a := data[..|data| - 1], data[|data| - 1];
      var r := MergedActors(m, init);
      var x := base + PartialAmounts(init, id);
      MergedActorsLast(m, data, id);
      MergedActorsKeys(m, init, id);
      if a.actorId != id {
        MergedActorsEntry(m, init, id);
        assert base + PartialAmounts(data, id) == x;
      } else if id in r {
        MergedActorsEntry(m, init, id);
        if id !in m {
          assert FirstOfActor(init, id).Some?;
          assert FirstOfActor(data, id) == FirstOfActor(init, id);
        }
        assert r[id].moviesAmount == x % U32_LIMIT;
        WrapStep32(x, r[id].moviesAmount, a.moviesAmount);
        assert base + PartialAmounts(data, id) == x + a.moviesAmount;
        assert MergedActors(m, data)[id].moviesAmount == (x + a.moviesAmount) % U32_LIMIT;
      } else {
        PartialAmountsAbsent(init, id);
        assert x == 0;
      }
    }
  }

  /** What the last partial result does to actor `id`'s entry and sums. */
  lemma MergedActorsLast(m: map<string, ActorMoviesAmount>, data: seq<ActorMoviesAmount>, id: string)
    requires data != []
    ensures var init, a := data[..|data| - 1], data[|data| - 1];
            var r := MergedActors(m, init);
            && PartialAmounts(data, id) == PartialAmounts(init, id) + (if a.actorId == id then a.moviesAmount else 0)
            && (a.actorId != id ==> FirstOfActor(data, id) == FirstOfActor(init, id))
            && (a.actorId != id && id in r ==> MergedActors(m, data)[id] == r[id])
            && (a.actorId == id && id in r ==>
                  MergedActors(m, data)[id] == r[id].(moviesAmount := AddU32(r[id].moviesAmount, a.moviesAmount)))
            && (a.actorId == id && id !in r ==> MergedActors(m, data)[id] == a)
  {
  }

  lemma {:induction false} PartialAmountsAbsent(data: seq<ActorMoviesAmount>, id: string)
    requires FirstOfActor(data, id).None?
    ensures PartialAmounts(data, id) == 0
  {
    if data != [] {
      PartialAmountsAbsent(data[..|data| - 1], id);
    }
  }

  /** As for query 2, batching does not change the merged counts. */
  lemma {:induction false} MergedActorsAppend(m: map<string, ActorMoviesAmount>, a: seq<ActorMoviesAmount>, b: seq<ActorMoviesAmount>)
    ensures MergedActors(MergedActors(m, a), b) == MergedActors(m, a + b)
  {
    if b != [] {
      assert (a + b)[..|a + b| - 1] == a + b[..|b| - 1];
      MergedActorsAppend(m, a, b[..|b| - 1]);
    } else {
      assert a + b == a;
    }
  }

  /** The Q4 processing closure's loop over the batch. */
  method MergeQ4(actorMovies: map<string, ActorMoviesAmount>, data: seq<ActorMoviesAmount>) returns (r: map<string, ActorMoviesAmount>)
    ensures r == MergedActors(actorMovies, data)
  {
    r := actorMovies;
    for i := 0 to |data|
      invariant r == MergedActors(actorMovies, data[..i])
    {
      assert data[..i + 1][..i] == data[..i];
      var actorMoviesAmount := data[i];
      if actorMoviesAmount.actorId !in r {
        r := r[actorMoviesAmount.actorId := actorMoviesAmount];
      } else {
        var current := r[actorMoviesAmount.actorId];
        r := r[actorMoviesAmount.actorId := current.(moviesAmount := AddU32(current.moviesAmount, actorMoviesAmount.moviesAmount))];
      }
    }
    assert data[..|data|] == data;
  }
}
