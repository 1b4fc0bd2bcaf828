/** The gateway's conversion of each query's final answer into the result
    records sent to the client (server/gateway/results.go). The records it
    builds for queries 2 to 5 carry more fields than the declarations in
    pkg/models/Results.go, so their shapes are declared here as the
    converter fills them; Q1Movie is shared. */
module GatewayResults {
  import opened Machine
  import opened Batches
  import opened Records
  import ResultModels

  /** One movie of the query 3 answer; the float32 rounding of the rating is
      not modelled. */
  datatype Q3Movie = Q3Movie(id: string, title: string, rating: real)

  datatype QueryItem =
    | Q1Item(movie: ResultModels.Q1Movie)
    | Q2Item(country: Country, budget: u64)
    | Q3Item(best: Q3Movie, worst: Q3Movie)
    | Q4Item(actorId: string, actorName: string, appearances: u32)
    | Q5Item(positiveAvgProfitRatio: real, negativeAvgProfitRatio: real)
  {
    /** The QueryId method of each record type. */
    function QueryId(): (q: int)
      ensures 1 <= q <= 5
    {
      match this
      case Q1Item(_) => 1
      case Q2Item(_, _) => 2
      case Q3Item(_, _) => 3
      case Q4Item(_, _, _) => 4
      case Q5Item(_, _) => 5
    }
  }

  datatype TotalQueryResults = TotalQueryResults(queryId: int, items: seq<QueryItem>, last: bool)

  /** Every item of the answer is a record of the answer's own query. */
  predicate Uniform(r: TotalQueryResults)
  {
    forall k :: 0 <= k < |r.items| ==> r.items[k].QueryId() == r.queryId
  }

  datatype BestAndWorstMovies = BestAndWorstMovies(bestMovie: MovieReview, worstMovie: MovieReview)
  datatype SentimentProfitRatioAverage = SentimentProfitRatioAverage(positiveAvgProfitRatio: real, negativeAvgProfitRatio: real)

  // ----- Query 1 -----

  function MovieItem(m: Movie): QueryItem
  {
    Q1Item(ResultModels.Q1Movie(m.title, m.genres))
  }

  /** MovieToQResult: one (title, genres) record per movie of the batch, in
      order; the answer is the last one exactly when the batch is EOF. */
  method MovieToQResult(batch: Batch<Movie>) returns (r: TotalQueryResults)
    ensures r.queryId == 1 && Uniform(r)
    ensures r.last <==> batch.IsEof()
    ensures |r.items| == |batch.data|
    ensures forall k :: 0 <= k < |batch.data| ==>
              r.items[k].movie.title == batch.data[k].title && r.items[k].movie.genres == batch.data[k].genres
  {
    var q1Movies: seq<QueryItem> := [];
    var i := 0;
    while i < |batch.data|
      invariant 0 <= i <= |batch.data|
      invariant |q1Movies| == i
      invariant forall k :: 0 <= k < i ==> q1Movies[k] == MovieItem(batch.data[k])
    {
      q1Movies := q1Movies + [MovieItem(batch.data[i])];
      i := i + 1;
    }
    r := TotalQueryResults(1, q1Movies, batch.IsEof());
  }

  // ----- Query 2 -----

  function CountryItems(countries: seq<CountryBudget>): seq<QueryItem>
  {
    seq(|countries|, k requires 0 <= k < |countries| => Q2Item(countries[k].country, countries[k].budget))
  }

  /** The country budgets the query 2 items carry. */
  function CountriesOf(items: seq<QueryItem>): seq<CountryBudget>
    requires forall k :: 0 <= k < |items| ==> items[k].Q2Item?
  {
    seq(|items|, k requires 0 <= k < |items| => CountryBudget(items[k].country, items[k].budget))
  }

  /** Top5CountriesToQResult: one record per country, filled by index, and
      always the last answer. */
  method Top5CountriesToQResult(top5: seq<CountryBudget>) returns (r: TotalQueryResults)
    ensures r.queryId == 2 && r.last && Uniform(r)
    ensures r.items == CountryItems(top5)
  {
    var q2Result := new QueryItem[|top5|];
    var i := 0;
    while i < |top5|
      invariant 0 <= i <= |top5|
      invariant forall k :: 0 <= k < i ==> q2Result[k] == Q2Item(top5[k].country, top5[k].budget)
    {
      q2Result[i] := Q2Item(top5[i].country, top5[i].budget);
      i := i + 1;
    }
    r := TotalQueryResults(2, q2Result[..], true);
  }

  /** The query 2 records lose nothing: the country budgets, their number and
      their order can be read back from them. */
  lemma CountriesRoundTrip(top5: seq<CountryBudget>)
    ensures forall k :: 0 <= k < |CountryItems(top5)| ==> CountryItems(top5)[k].Q2Item?
    ensures CountriesOf(CountryItems(top5)) == top5
  {
    var items := CountryItems(top5);
    assert forall k :: 0 <= k < |items| ==> items[k] == Q2Item(top5[k].country, top5[k].budget);
    assert forall k :: 0 <= k < |top5| ==> CountriesOf(items)[k] == top5[k];
  }

  // ----- Query 3 -----

  function PickOf(m: MovieReview): Q3Movie
  {
    Q3Movie(m.movieId, m.title, m.rating)
  }

  /** BestAndWorstToQResult: a single record holding both movies. */
  function BestAndWorstToQResult(bw: BestAndWorstMovies): (r: TotalQueryResults)
    ensures r.queryId == 3 && r.last && Uniform(r) && |r.items| == 1
    ensures r.items[0].Q3Item?
    ensures r.items[0].best.id == bw.bestMovie.movieId && r.items[0].best.title == bw.bestMovie.title
    ensures r.items[0].worst.id == bw.worstMovie.movieId && r.items[0].worst.title == bw.worstMovie.title
  {
    TotalQueryResults(3, [Q3Item(PickOf(bw.bestMovie), PickOf(bw.worstMovie))], true)
  }

  // ----- Query 4 -----

  function ActorItems(actors: seq<ActorMoviesAmount>): seq<QueryItem>
  {
    seq(|actors|, k requires 0 <= k < |actors| =>
      Q4Item(actors[k].actorId, actors[k].actorName, actors[k].moviesAmount))
  }

  /** The actor counts the query 4 items carry. */
  function ActorsOf(items: seq<QueryItem>): seq<ActorMoviesAmount>
    requires forall k :: 0 <= k < |items| ==> items[k].Q4Item?
  {
    seq(|items|, k requires 0 <= k < |items| =>
      ActorMoviesAmount(items[k].actorId, items[k].actorName, items[k].appearances))
  }

  /** Top10ActorsToQResult: one record per actor, filled by index, and always
      the last answer. */
  method Top10ActorsToQResult(top10: seq<ActorMoviesAmount>) returns (r: TotalQueryResults)
    ensures r.queryId == 4 && r.last && Uniform(r)
    ensures r.items == ActorItems(top10)
  {
    var q4Results := new QueryItem[|top10|];
    var i := 0;
    while i < |top10|
      invariant 0 <= i <= |top10|
      invariant forall k :: 0 <= k < i ==>
                  q4Results[k] == Q4Item(top10[k].actorId, top10[k].actorName, top10[k].moviesAmount)
    {
      q4Results[i] := Q4Item(top10[i].actorId, top10[i].actorName, top10[i].moviesAmount);
      i := i + 1;
    }
    r := TotalQueryResults(4, q4Results[..], true);
  }

  /** The query 4 records lose nothing: ID, name and count of every actor, in
      order, can be read back from them. */
  lemma ActorsRoundTrip(top10: seq<ActorMoviesAmount>)
    ensures forall k :: 0 <= k < |ActorItems(top10)| ==> ActorItems(top10)[k].Q4Item?
    ensures ActorsOf(ActorItems(top10)) == top10
  {
    var items := ActorItems(top10);
    assert forall k :: 0 <= k < |items| ==>
      items[k] == Q4Item(top10[k].actorId, top10[k].actorName, top10[k].moviesAmount);
    assert forall k :: 0 <= k < |top10| ==> ActorsOf(items)[k] == top10[k];
  }

  // ----- Query 5 -----

  /** SentimentToQResult: a single record holding both averages. */
  function SentimentToQResult(ratio: SentimentProfitRatioAverage): (r: TotalQueryResults)
    ensures r.queryId == 5 && r.last && Uniform(r) && |r.items| == 1
    ensures r.items[0] == Q5Item(ratio.positiveAvgProfitRatio, ratio.negativeAvgProfitRatio)
  {
    TotalQueryResults(5, [Q5Item(ratio.positiveAvgProfitRatio, ratio.negativeAvgProfitRatio)], true)
  }
}
