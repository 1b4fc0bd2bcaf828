/** The per-batch reducer stage (server/reducer/reducer.go): each batch is
    folded into a map keyed by country, movie or actor, and the map's entries
    are sent on in Go's unspecified map order. The floating-point parts of
    queries 3 and 5 (rating sums, profit ratios) are not modelled; their
    integer counts are. */
module Reducer {
  import opened Wrappers
  import opened Machine
  import opened Utils
  import opened Batches
  import opened Records
  import opened Listings

  // ----- Query 2: budget per country -----

  predicate SingleCountry(m: Movie)
  {
    |m.productionCountries| == 1
  }

  /** The running uint64 budget total per country. */
  function CountryTotals(data: seq<Movie>): map<Country, u64>
    requires forall k :: 0 <= k < |data| ==> SingleCountry(data[k])
  {
    if data == [] then map[]
    else
      var m := CountryTotals(data[..|data| - 1]);
      var movie := data[|data| - 1];
      assert SingleCountry(movie);
      var c := movie.productionCountries[0];
      m[c := AddU64(if c in m then m[c] else 0, movie.budget)]
  }

  /** The arithmetic sum of the budgets of the movies of country `c`. */
  function BudgetOf(data: seq<Movie>, c: Country): nat
    requires forall k :: 0 <= k < |data| ==> SingleCountry(data[k])
  {
    if data == [] then 0
    else
      var movie := data[|data| - 1];
      assert SingleCountry(movie);
      BudgetOf(data[..|data| - 1], c) + if movie.productionCountries[0] == c then movie.budget else 0
  }

  /** Each country of the batch gets exactly one total, which is the sum of its
      movies' budgets modulo 2^64. */
  lemma {:induction false} CountryTotalsAreSums(data: seq<Movie>, c: Country)
    requires forall k :: 0 <= k < |data| ==> SingleCountry(data[k])
    ensures c in CountryTotals(data) <==> exists k :: 0 <= k < |data| && data[k].productionCountries[0] == c
    ensures c in CountryTotals(data) ==> CountryTotals(data)[c] == BudgetOf(data, c) % U64_LIMIT
    ensures c !in CountryTotals(data) ==> BudgetOf(data, c) == 0
  {
    CountryTotalsKeys(data, c);
    CountryTotalsValues(data, c);
  }

  lemma {:induction false} CountryTotalsKeys(data: seq<Movie>, c: Country)
    requires forall k :: 0 <= k < |data| ==> SingleCountry(data[k])
    ensures c in CountryTotals(data) <==> exists k :: 0 <= k < |data| && data[k].productionCountries[0] == c
  {
    if data != [] {
      var init := data[..|data| - 1];
      CountryTotalsKeys(init, c);
      if exists k :: 0 <= k < |init| && init[k].productionCountries[0] == c {
        var k :| 0 <= k < |init| && init[k].productionCountries[0] == c;
        assert data[k] == init[k];
      }
      if exists k :: 0 <= k < |data| && data[k].productionCountries[0] == c {
        var k :| 0 <= k < |data| && data[k].productionCountries[0] == c;
        if k < |init| {
          assert init[k] == data[k];
        }
      }
    }
  }

  lemma {:induction false} CountryTotalsValues(data: seq<Movie>, c: Country)
    requires forall k :: 0 <= k < |data| ==> SingleCountry(data[k])
    ensures c in CountryTotals(data) ==> CountryTotals(data)[c] == BudgetOf(data, c) % U64_LIMIT
    ensures c !in CountryTotals(data) ==> BudgetOf(data, c) == 0
  {
    if data != [] {
      var init, movie := data[..|data| - 1], data[|data| - 1];
      assert SingleCountry(movie);
      var m := CountryTotals(init);
      CountryTotalsValues(init, c);
      if movie.productionCountries[0] == c {
        assert CountryTotals(data)[c] == AddU64(if c in m then m[c] else 0, movie.budget);
        assert BudgetOf(data, c) == BudgetOf(init, c) + movie.budget;
        if c in m {
          WrapStep64(BudgetOf(init, c), m[c], movie.budget);
        } else {
          SmallMod64(movie.budget);
        }
      } else {
        assert BudgetOf(data, c) == BudgetOf(init, c);
        assert c in CountryTotals(data) <==> c in m;
      }
    }
  }

  /** Every movie without a production country comes after one with several:
      reduceQ2 stops at the latter before it would read country 0 of the former. */
  predicate NoMissingCountry(data: seq<Movie>)
  {
    forall k :: 0 <= k < |data| && data[k].productionCountries == [] ==>
      exists j :: 0 <= j < k && |data[j].productionCountries| > 1
  }

  datatype ReduceError =
    | DecodeFailed                      // the message body is not a batch
    | TooManyCountries(movie: Movie)    // reduceQ2's own error
    | ReduceFailed(inner: ReduceError)  // a reducer's error, wrapped by reduceMessage

  /** reduceQ2's loop: the running total per country, or the first movie with
      several production countries. */
  method SumByCountry(data: seq<Movie>) returns (r: Result<map<Country, u64>, ReduceError>)
    requires NoMissingCountry(data)
    ensures r.Err? <==> exists k :: 0 <= k < |data| && |data[k].productionCountries| > 1
    ensures r.Err? ==> r.error.TooManyCountries? && r.error.movie in data
    ensures r.Ok? ==> (forall k :: 0 <= k < |data| ==> SingleCountry(data[k])) && r.value == CountryTotals(data)
  {
    var countries: map<Country, u64> := map[];
    for i := 0 to |data|
      invariant forall k :: 0 <= k < i ==> SingleCountry(data[k])
      invariant countries == CountryTotals(data[..i])
    {
      var movie := data[i];
      if |movie.productionCountries| > 1 {
        return Err(TooManyCountries(movie));
      }
      assert movie.productionCountries != [];
      assert data[..i + 1][..i] == data[..i];
      var c := movie.productionCountries[0];
      countries := countries[c := AddU64(if c in countries then countries[c] else 0, movie.budget)];
    }
    assert data[..|data|] == data;
    return Ok(countries);
  }

  /** reduceQ2. A movie without production countries panics in the source when
      it is reached, so the model requires that a movie with several
      countries, which stops the reduction first, precedes any such movie. */
  method ReduceQ2(batch: Batch<Movie>) returns (r: Result<Batch<CountryBudget>, ReduceError>)
    requires NoMissingCountry(batch.data)
    ensures r.Err? <==> exists k :: 0 <= k < |batch.data| && |batch.data[k].productionCountries| > 1
    ensures r.Err? ==> r.error.TooManyCountries? && r.error.movie in batch.data
    ensures r.Ok? ==>
              && (forall k :: 0 <= k < |batch.data| ==> SingleCountry(batch.data[k]))
              && r.value.header == batch.header
              && ListsCountries(r.value.data, CountryTotals(batch.data))
  {
    var sums := SumByCountry(batch.data);
    if sums.Err? {
      return Err(sums.error);
    }
    var countries := sums.value;
    var keys, budgets := Listing(countries);
    var countriesList := seq(|keys|, i requires 0 <= i < |keys| => CountryBudget(keys[i], budgets[i]));
    PairedListsCountries(countriesList, keys, budgets, countries);
    return Ok(Batch(batch.header, countriesList));
  }

  // ----- Counting by key (queries 3 and 4) -----

  /** Per key: the first item with that key and how many items have it, as a
      uint32 counter. */
  function Counted<T>(items: seq<T>, key: T -> string): map<string, (T, u32)>
  {
    if items == [] then map[]
    else
      var m := Counted(items[..|items| - 1], key);
      var x := items[|items| - 1];
      if key(x) in m then m[key(x) := (m[key(x)].0, AddU32(m[key(x)].1, 1))]
      else m[key(x) := (x, 1)]
  }

  function Occurrences<T>(items: seq<T>, key: T -> string, k: string): nat
  {
    if items == [] then 0
    else Occurrences(items[..|items| - 1], key, k) + if key(items[|items| - 1]) == k then 1 else 0
  }

  /** A key is counted iff some item has it; its entry holds the first such
      item and the number of such items modulo 2^32. */
  lemma {:induction false} CountedEntries<T>(items: seq<T>, key: T -> string, k: string)
    ensures k in Counted(items, key) <==> exists i :: 0 <= i < |items| && key(items[i]) == k
    ensures k in Counted(items, key) ==>
              && Counted(items, key)[k].1 == Occurrences(items, key, k) % U32_LIMIT
              && exists i :: 0 <= i < |items| && key(items[i]) == k && Counted(items, key)[k].0 == items[i]
                             && forall j :: 0 <= j < i ==> key(items[j]) != k
    ensures k !in Counted(items, key) ==> Occurrences(items, key, k) == 0
  {
    if items != [] {
      var init := items[..|items| - 1];
      CountedEntries(init, key, k);
      assert forall i :: 0 <= i < |init| ==> init[i] == items[i];
      if k in Counted(init, key) {
        var i :| 0 <= i < |init| && key(init[i]) == k && Counted(init, key)[k].0 == init[i]
                 && forall j :: 0 <= j < i ==> key(init[j]) != k;
        assert key(items[i]) == k;
      } else if key(items[|items| - 1]) == k {
        assert forall j :: 0 <= j < |init| ==> key(items[j]) != k;
      }
    }
  }

  function ReviewKey(r: MovieReview): string { r.movieId }
  function ActorKey(a: Actor): string { a.actorId }

  /** The reduceQ3 map with its rating sums left out. */
  function RatingCounts(reviews: seq<MovieReview>): map<string, MovieRatingCount>
  {
    var c := Counted(reviews, ReviewKey);
    map id | id in c :: MovieRatingCount(id, c[id].0.title, c[id].1)
  }

  /** The reduceQ4 map. */
  function ActorCounts(actors: seq<Actor>): map<string, ActorMoviesAmount>
  {
    var c := Counted(actors, ActorKey);
    map id | id in c :: ActorMoviesAmount(id, c[id].0.name, c[id].1)
  }

  lemma RatingCountsStep(reviews: seq<MovieReview>, r: MovieReview)
    ensures RatingCounts(reviews + [r]) ==
              var m := RatingCounts(reviews);
              if r.movieId in m then m[r.movieId := m[r.movieId].(ratingCount := AddU32(m[r.movieId].ratingCount, 1))]
              else m[r.movieId := MovieRatingCount(r.movieId, r.title, 1)]
  {
    assert (reviews + [r])[..|reviews + [r]| - 1] == reviews;
  }

  lemma ActorCountsStep(actors: seq<Actor>, a: Actor)
    ensures ActorCounts(actors + [a]) ==
              var m := ActorCounts(actors);
              if a.actorId in m then m[a.actorId := m[a.actorId].(moviesAmount := AddU32(m[a.actorId].moviesAmount, 1))]
              else m[a.actorId := ActorMoviesAmount(a.actorId, a.name, 1)]
  {
    assert (actors + [a])[..|actors + [a]| - 1] == actors;
  }

  /** An entry per reviewed movie, holding the movie, the title of its first
      review and its review count modulo 2^32. */
  lemma RatingCountsMeaning(reviews: seq<MovieReview>, id: string)
    ensures id in RatingCounts(reviews) <==> exists i :: 0 <= i < |reviews| && reviews[i].movieId == id
    ensures id in RatingCounts(reviews) ==>
              && RatingCounts(reviews)[id].movieId == id
              && RatingCounts(reviews)[id].ratingCount == Occurrences(reviews, ReviewKey, id) % U32_LIMIT
              && exists i :: 0 <= i < |reviews| && reviews[i].movieId == id && RatingCounts(reviews)[id].title == reviews[i].title
                             && forall j :: 0 <= j < i ==> reviews[j].movieId != id
  {
    CountedEntries(reviews, ReviewKey, id);
  }

  /** An entry per actor, holding the actor, the name at its first appearance
      and its number of appearances modulo 2^32. */
  lemma ActorCountsMeaning(actors: seq<Actor>, id: string)
    ensures id in ActorCounts(actors) <==> exists i :: 0 <= i < |actors| && actors[i].actorId == id
    ensures id in ActorCounts(actors) ==>
              && ActorCounts(actors)[id].actorId == id
              && ActorCounts(actors)[id].moviesAmount == Occurrences(actors, ActorKey, id) % U32_LIMIT
              && exists i :: 0 <= i < |actors| && actors[i].actorId == id && ActorCounts(actors)[id].actorName == actors[i].name
                             && forall j :: 0 <= j < i ==> actors[j].actorId != id
  {
    CountedEntries(actors, ActorKey, id);
  }

  /** The counting part of reduceQ3: one entry per movie, counting its reviews,
      with the title of its first review; the header is kept. */
  method ReduceQ3(batch: Batch<MovieReview>) returns (r: Batch<MovieRatingCount>)
    ensures r.header == batch.header
    ensures exists ids :: Lists(ids, r.data, RatingCounts(batch.data))
  {
    var movieRatings: map<string, MovieRatingCount> := map[];
    for i := 0 to |batch.data|
      invariant movieRatings == RatingCounts(batch.data[..i])
    {
      var movieRating := batch.data[i];
      RatingCountsStep(batch.data[..i], movieRating);
      assert batch.data[..i + 1] == batch.data[..i] + [movieRating];
      if movieRating.movieId !in movieRatings {
        movieRatings := movieRatings[movieRating.movieId := MovieRatingCount(movieRating.movieId, movieRating.title, 1)];
      } else {
        var currentRating := movieRatings[movieRating.movieId];
        currentRating := currentRating.(ratingCount := AddU32(currentRating.ratingCount, 1));
        movieRatings := movieRatings[movieRating.movieId := currentRating];
      }
    }
    assert batch.data[..|batch.data|] == batch.data;
    var ids, list := Listing(movieRatings);
    return Batch(batch.header, list);
  }

  /** Every actor listed in any credit of the batch, in order. */
  function ActorsOf(credits: seq<Credit>): seq<Actor>
  {
    if credits == [] then [] else ActorsOf(credits[..|credits| - 1]) + credits[|credits| - 1].actors
  }

  /** reduceQ4's inner loop over one credit's cast. */
  method CountActors(actorMovies: map<string, ActorMoviesAmount>, before: seq<Actor>, actors: seq<Actor>)
    returns (r: map<string, ActorMoviesAmount>)
    requires actorMovies == ActorCounts(before)
    ensures r == ActorCounts(before + actors)
  {
    r := actorMovies;
    assert before + actors[..0] == before;
    for j := 0 to |actors|
      invariant r == ActorCounts(before + actors[..j])
    {
      var actor := actors[j];
      ActorCountsStep(before + actors[..j], actor);
      assert before + actors[..j + 1] == before + actors[..j] + [actor];
      if actor.actorId !in r {
        r := r[actor.actorId := ActorMoviesAmount(actor.actorId, actor.name, 1)];
      } else {
        var currentMoviesAmount := r[actor.actorId];
        currentMoviesAmount := currentMoviesAmount.(moviesAmount := AddU32(currentMoviesAmount.moviesAmount, 1));
        r := r[actor.actorId := currentMoviesAmount];
      }
    }
    assert actors[..|actors|] == actors;
  }

  /** reduceQ4: one entry per actor, counting the credits that list the actor,
      with the name of the actor's first appearance; the header is kept. */
  method ReduceQ4(batch: Batch<Credit>) returns (r: Batch<ActorMoviesAmount>)
    ensures r.header == batch.header
    ensures exists ids :: Lists(ids, r.data, ActorCounts(ActorsOf(batch.data)))
  {
    var actorMovies: map<string, ActorMoviesAmount> := map[];
    for i := 0 to |batch.data|
      invariant actorMovies == ActorCounts(ActorsOf(batch.data[..i]))
    {
      var credit := batch.data[i];
      assert batch.data[..i + 1][..i] == batch.data[..i];
      actorMovies := CountActors(actorMovies, ActorsOf(batch.data[..i]), credit.actors);
    }
    assert batch.data[..|batch.data|] == batch.data;
    var ids, list := Listing(actorMovies);
    return Batch(batch.header, list);
  }

  // ----- Query 5: counts per sentiment -----

  /** A movie enters the profit ratio only with a non-zero revenue and budget. */
  predicate HasProfitRatio(m: MovieWithSentiment)
  {
    m.movie.revenue != 0 && m.movie.budget != 0
  }

  predicate CountsPositive(m: MovieWithSentiment) { HasProfitRatio(m) && m.sentiment == Positive }
  predicate CountsNegative(m: MovieWithSentiment) { HasProfitRatio(m) && m.sentiment == Negative }

  function SentimentTally(data: seq<MovieWithSentiment>): SentimentCounts
  {
    if data == [] then SentimentCounts(0, 0)
    else
      var t := SentimentTally(data[..|data| - 1]);
      var m := data[|data| - 1];
      if !HasProfitRatio(m) then t
      else if m.sentiment == Positive then t.(positiveCount := AddU32(t.positiveCount, 1))
      else t.(negativeCount := AddU32(t.negativeCount, 1))
  }

  /** The two counters count the movies with a profit ratio of each sentiment,
      modulo 2^32. */
  lemma {:induction false} SentimentTallyCounts(data: seq<MovieWithSentiment>)
    ensures SentimentTally(data).positiveCount == |Filtered(data, CountsPositive)| % U32_LIMIT
    ensures SentimentTally(data).negativeCount == |Filtered(data, CountsNegative)| % U32_LIMIT
  {
    if data != [] {
      var init, m := data[..|data| - 1], data[|data| - 1];
      var t := SentimentTally(init);
      SentimentTallyCounts(init);
      assert |Filtered(data, CountsPositive)| == |Filtered(init, CountsPositive)| + if CountsPositive(m) then 1 else 0;
      assert |Filtered(data, CountsNegative)| == |Filtered(init, CountsNegative)| + if CountsNegative(m) then 1 else 0;
      if CountsPositive(m) {
        WrapStep32(|Filtered(init, CountsPositive)|, t.positiveCount, 1);
      } else if CountsNegative(m) {
        WrapStep32(|Filtered(init, CountsNegative)|, t.negativeCount, 1);
      }
    }
  }

  /** The counting part of reduceQ5: exactly one accumulator, and the header kept. */
  method ReduceQ5(batch: Batch<MovieWithSentiment>) returns (r: Batch<SentimentCounts>)
    ensures r.header == batch.header
    ensures r.data == [SentimentTally(batch.data)]
  {
    var positive := 0;
    var negative := 0;
    for i := 0 to |batch.data|
      invariant SentimentCounts(positive, negative) == SentimentTally(batch.data[..i])
    {
      var movieWithSentiment := batch.data[i];
      assert batch.data[..i + 1][..i] == batch.data[..i];
      if movieWithSentiment.movie.revenue == 0 || movieWithSentiment.movie.budget == 0 {
        continue;
      }
      if movieWithSentiment.sentiment == Positive {
        positive := AddU32(positive, 1);
      } else {
        negative := AddU32(negative, 1);
      }
    }
    assert batch.data[..|batch.data|] == batch.data;
    return Batch(batch.header, [SentimentCounts(positive, negative)]);
  }

  /** reduceMessage: decode, then reduce; either failure yields the zero value
      and an error, a reducer's own error wrapped. `reduce` stands for the
      chosen reducer's outcome. */
  function ReduceMessage<T, R>(body: Option<Batch<T>>, reduce: Batch<T> -> Result<R, ReduceError>, zero: R): (r: (R, Option<ReduceError>))
    ensures r.1.None? <==> body.Some? && reduce(body.value).Ok?
    ensures r.1.None? ==> r.0 == reduce(body.value).value
    ensures r.1.Some? ==> r.0 == zero
    ensures body.None? ==> r.1 == Some(DecodeFailed)
    ensures body.Some? && reduce(body.value).Err? ==> r.1 == Some(ReduceFailed(reduce(body.value).error))
  {
    match body
    case None => (zero, Some(DecodeFailed))
    case Some(batch) =>
      match reduce(batch)
      case Err(e) => (zero, Some(ReduceFailed(e)))
      case Ok(reduced) => (reduced, None)
  }
}
