/** The two filter stages: the production filter (server/production-filter/
    filter.go) for queries 1-3 and the year filter (server/year-filter/
    filter.go) for queries 1 and 3-4. Their `filterMessage` functions are
    identical and are modelled once. A received message is modelled by the
    outcome of decoding its body: None where decoding fails. */
module Filters {
  import opened Wrappers
  import opened Utils
  import opened Batches
  import opened Records
  import opened Sharding

  const ARGENTINA: Country := Country("AR", "Argentina")
  const SPAIN: Country := Country("ES", "Spain")

  /** Query 1: co-produced by Argentina and Spain (whole-value comparison). */
  predicate ProductionQ1(movie: Movie)
  {
    ARGENTINA in movie.productionCountries && SPAIN in movie.productionCountries
  }

  /** Query 2: a single production country and a positive budget. */
  predicate ProductionQ2(movie: Movie)
  {
    |movie.productionCountries| == 1 && movie.budget > 0
  }

  /** Query 3: produced (possibly jointly) by Argentina. */
  predicate ProductionQ3(movie: Movie)
  {
    ARGENTINA in movie.productionCountries
  }

  predicate Year2000s(movie: Movie)
  {
    movie.year >= 2000 && movie.year < 2010
  }

  predicate YearAfter2000s(movie: Movie)
  {
    movie.year >= 2000
  }

  /** The query predicates, stated against independent characterisations. */
  lemma PredicatesMeaning(movie: Movie)
    ensures ProductionQ1(movie) <==>
              (exists i, j :: 0 <= i < |movie.productionCountries| && 0 <= j < |movie.productionCountries|
                 && movie.productionCountries[i] == Country("AR", "Argentina")
                 && movie.productionCountries[j] == Country("ES", "Spain"))
    ensures ProductionQ1(movie) ==> ProductionQ3(movie)
    ensures ProductionQ2(movie) ==> movie.productionCountries != [] && !(ProductionQ1(movie))
    ensures Year2000s(movie) <==> movie.year in {2000, 2001, 2002, 2003, 2004, 2005, 2006, 2007, 2008, 2009}
  {
    if ProductionQ2(movie) {
      assert movie.productionCountries == [movie.productionCountries[0]];
    }
  }

  /** Every movie of the 2000s is also one from 2000 on, and the yearly filter
      keeps a subset of what the open-ended one keeps. */
  lemma Year2000sWithinAfter2000s(data: seq<Movie>, x: Movie)
    ensures Year2000s(x) ==> YearAfter2000s(x)
    ensures x in Filtered(data, Year2000s) ==> x in Filtered(data, YearAfter2000s)
  {
    FilteredMembers(data, Year2000s, x);
    FilteredMembers(data, YearAfter2000s, x);
  }

  /** What filterMessage makes of a decoded batch: EOF batches pass untouched,
      otherwise the data is filtered in order; the header is kept. */
  function FilteredBatch(batch: Batch<Movie>, keep: Movie -> bool): (r: Batch<Movie>)
    ensures r.header == batch.header
    ensures r.IsEof() == batch.IsEof()
    ensures batch.IsEof() ==> r.data == batch.data
  {
    if batch.IsEof() then batch else Batch(batch.header, Filtered(batch.data, keep))
  }

  /** A data batch keeps exactly its movies that satisfy the predicate, each as
      often as it occurs. */
  lemma FilteredBatchKeeps(batch: Batch<Movie>, keep: Movie -> bool, m: Movie)
    requires !batch.IsEof()
    ensures multiset(FilteredBatch(batch, keep).data)[m] == if keep(m) then multiset(batch.data)[m] else 0
  {
    FilteredCount(batch.data, keep, m);
  }

  datatype FilterError = DecodeFailed

  /** filterMessage (both filters). */
  method FilterMessage(body: Option<Batch<Movie>>, keep: Movie -> bool) returns (r: Result<Batch<Movie>, FilterError>)
    ensures body.None? <==> r.Err?
    ensures r.Ok? ==> r.value == FilteredBatch(body.value, keep)
  {
    if body.None? {
      return Err(DecodeFailed);
    }
    var batch := body.value;
    var filteredMovies := batch.data;
    if !batch.IsEof() {
      filteredMovies := Filter(batch.data, keep);
    }
    batch := batch.(data := filteredMovies);
    return Ok(batch);
  }

  /** The year filter's processQueryMessage: filter, then send on the output
      queue; on a decoding failure nothing is sent. */
  method ProcessQueryMessage(queue: seq<Batch<Movie>>, body: Option<Batch<Movie>>, keep: Movie -> bool)
    returns (queue': seq<Batch<Movie>>, err: Option<FilterError>)
    ensures body.None? ==> err == Some(DecodeFailed) && queue' == queue
    ensures body.Some? ==> err.None? && queue' == queue + [FilteredBatch(body.value, keep)]
  {
    var r := FilterMessage(body, keep);
    if r.Err? {
      return queue, Some(DecodeFailed);
    }
    return queue + [r.value], None;
  }

  /** The shard of a movie: GetShard of its ID. */
  function MovieShard(getShard: (string, int) -> int, shards: int): Movie -> int
  {
    (m: Movie) => getShard(m.id, shards)
  }

  /** sendBatchToShards: every shard 1..shards is sent, in ascending order, the
      batch's header with the movies of that shard, possibly none. The source
      indexes its buckets with the shard, so every movie's shard must be in
      1..shards; it sends on a channel per shard, which its setup creates. */
  method SendBatchToShards(batch: Batch<Movie>, shards: nat, chans: map<int, seq<Batch<Movie>>>,
                           getShard: (string, int) -> int)
    returns (out: map<int, seq<Batch<Movie>>>)
    requires forall k :: 0 <= k < |batch.data| ==> 1 <= getShard(batch.data[k].id, shards) <= shards
    requires forall id :: 1 <= id <= shards ==> id in chans
    ensures out.Keys == chans.Keys
    ensures forall id :: 1 <= id <= shards ==>
              out[id] == chans[id] + [Batch(batch.header, Bucket(batch.data, MovieShard(getShard, shards), id))]
    ensures forall id :: id in chans && !(1 <= id <= shards) ==> out[id] == chans[id]
  {
    var shard := MovieShard(getShard, shards);
    var movies := new seq<Movie>[shards](_ => []);
    for k := 0 to |batch.data|
      invariant forall j :: 0 <= j < shards ==> movies[j] == Bucket(batch.data[..k], shard, j + 1)
    {
      assert batch.data[..k + 1][..k] == batch.data[..k];
      var movie := batch.data[k];
      var s := getShard(movie.id, shards);
      movies[s - 1] := movies[s - 1] + [movie];
    }
    assert batch.data[..|batch.data|] == batch.data;
    out := chans;
    for i := 0 to shards
      invariant out.Keys == chans.Keys
      invariant forall id :: 1 <= id <= i ==>
                  out[id] == chans[id] + [Batch(batch.header, Bucket(batch.data, shard, id))]
      invariant forall id :: id in chans && !(1 <= id <= i) ==> out[id] == chans[id]
    {
      var currentBatch := batch.(data := movies[i]);
      out := out[i + 1 := out[i + 1] + [currentBatch]];
    }
  }
}
