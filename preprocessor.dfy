/** The preprocessor stage (server/preprocessor/preprocessor.go and
    parsing.go): it maps raw input batches to internal records and routes
    them, movies to four queues and reviews and credits to the joiner shards.
    Channels are modelled as the sequences of batches sent on them; JSON
    encoding is not modelled, so batches are sent as values. */
module Preprocessor {
  import opened Wrappers
  import opened Machine
  import opened Text
  import opened Utils
  import opened Batches
  import opened Records
  import opened Sharding

  /** The queues every movies batch is sent to, in sending order. */
  const MOVIE_QUEUES: seq<string> := ["filter-year-q1", "filter-production-q2", "filter-year-q3q4", "sentiment-analyzer"]

  /** An EOF batch carrying only the announced total. The client id is left
      empty, as in the source. */
  function MakeEOFBatch<T>(totalWeight: i32): (b: Batch<T>)
    ensures b.header.weight == 0 && b.header.totalWeight == totalWeight && b.data == []
    ensures b.header.clientId == ""
    ensures b.IsEof() <==> totalWeight > 0
  {
    Batch(Header(0, totalWeight, ""), [])
  }

  /** A batch with the given weights and data; the client id is left empty. */
  function MakeBatchMsg<T>(weight: u32, data: seq<T>, totalWeight: i32): (b: Batch<T>)
    ensures b.header.weight == weight && b.header.totalWeight == totalWeight && b.data == data
    ensures b.header.clientId == ""
    ensures b.IsEof() <==> totalWeight > 0
  {
    Batch(Header(weight, totalWeight, ""), data)
  }

  // ----- parsing.go -----

  /** The internal form of a raw movie: the ID becomes its decimal form, the
      year comes from the release date, and the other fields are copied. */
  function ToMovie(raw: RawMovie): (m: Movie)
    ensures ParseDigits(m.id) == Some(raw.id as nat)
    ensures m.title == raw.title && m.year == raw.releaseYear && m.genres == raw.genres
    ensures m.productionCountries == raw.productionCountries
    ensures m.budget == raw.budget && m.revenue == raw.revenue && m.overview == raw.overview
  {
    DigitsValueOfNatToString(raw.id);
    Movie(NatToString(raw.id), raw.title, raw.releaseYear, raw.genres,
          raw.productionCountries, raw.budget, raw.revenue, raw.overview)
  }

  /** Distinct raw movie IDs stay distinct. */
  lemma MovieIdsDistinct(a: RawMovie, b: RawMovie)
    requires a.id != b.id
    ensures ToMovie(a).id != ToMovie(b).id
  {
    NatToStringInjective(a.id, b.id);
  }

  /** A review keeps its user as its ID, its movie and its rating. */
  function ToReview(raw: RawReview): (r: Review)
    ensures r.id == raw.userId && r.movieId == raw.movieId && r.rating == raw.rating
  {
    Review(raw.userId, raw.movieId, raw.rating)
  }

  /** An actor is a cast member's decimal ID and name. */
  function ToActor(member: CastMember): (a: Actor)
    ensures ParseInt(a.actorId) == Some(member.id) && a.name == member.name
  {
    ParseIntOfIntToString(member.id);
    Actor(IntToString(member.id), member.name)
  }

  /** A credit keeps the movie and the cast, in order, as actors; the crew is dropped. */
  function ToCredit(raw: RawCredits): (c: Credit)
    ensures c.movieId == raw.movieId && |c.actors| == |raw.cast|
    ensures forall k :: 0 <= k < |raw.cast| ==> c.actors[k] == ToActor(raw.cast[k])
  {
    Credit(Mapped(raw.cast, ToActor), raw.movieId)
  }

  function MoviesBatch(batch: RawBatch<RawMovie>): Batch<Movie>
  {
    MakeBatchMsg(batch.header.weight, Mapped(batch.data, ToMovie), batch.header.totalWeight)
  }

  function ReviewsBatch(batch: RawBatch<RawReview>): Batch<Review>
  {
    MakeBatchMsg(batch.header.weight, Mapped(batch.data, ToReview), batch.header.totalWeight)
  }

  function CreditsBatch(batch: RawBatch<RawCredits>): Batch<Credit>
  {
    MakeBatchMsg(batch.header.weight, Mapped(batch.data, ToCredit), batch.header.totalWeight)
  }

  method PreprocessMovies(batch: RawBatch<RawMovie>) returns (res: Batch<Movie>)
    ensures res == MoviesBatch(batch)
  {
    var movies: seq<Movie> := [];
    for i := 0 to |batch.data|
      invariant movies == Mapped(batch.data[..i], ToMovie)
    {
      assert batch.data[..i + 1][..i] == batch.data[..i];
      movies := movies + [ToMovie(batch.data[i])];
    }
    assert batch.data[..|batch.data|] == batch.data;
    res := MakeBatchMsg(batch.header.weight, movies, batch.header.totalWeight);
  }

  method PreprocessReviews(batch: RawBatch<RawReview>) returns (res: Batch<Review>)
    ensures res == ReviewsBatch(batch)
  {
    var reviews: seq<Review> := [];
    for i := 0 to |batch.data|
      invariant reviews == Mapped(batch.data[..i], ToReview)
    {
      assert batch.data[..i + 1][..i] == batch.data[..i];
      var review := batch.data[i];
      reviews := reviews + [Review(review.userId, review.movieId, review.rating)];
    }
    assert batch.data[..|batch.data|] == batch.data;
    res := MakeBatchMsg(batch.header.weight, reviews, batch.header.totalWeight);
  }

  method PreprocessCredits(batch: RawBatch<RawCredits>) returns (res: Batch<Credit>)
    ensures res == CreditsBatch(batch)
  {
    var credits: seq<Credit> := [];
    for i := 0 to |batch.data|
      invariant credits == Mapped(batch.data[..i], ToCredit)
    {
      assert batch.data[..i + 1][..i] == batch.data[..i];
      var credit := batch.data[i];
      var actors := CastToActors(credit.cast);
      credits := credits + [Credit(actors, credit.movieId)];
    }
    assert batch.data[..|batch.data|] == batch.data;
    res := MakeBatchMsg(batch.header.weight, credits, batch.header.totalWeight);
  }

  /** The inner loop of preprocessCredits: each cast member becomes an actor, in order. */
  method CastToActors(cast: seq<CastMember>) returns (actors: seq<Actor>)
    ensures actors == Mapped(cast, ToActor)
  {
    actors := [];
    for j := 0 to |cast|
      invariant actors == Mapped(cast[..j], ToActor)
    {
      assert cast[..j + 1][..j] == cast[..j];
      actors := actors + [ToActor(cast[j])];
    }
    assert cast[..|cast|] == cast;
  }

  /** One output item per input item, in order, and only Weight and TotalWeight
      of the header survive. */
  lemma PreprocessedShape(movies: RawBatch<RawMovie>, reviews: RawBatch<RawReview>, credits: RawBatch<RawCredits>)
    ensures |MoviesBatch(movies).data| == |movies.data|
    ensures forall k :: 0 <= k < |movies.data| ==> MoviesBatch(movies).data[k] == ToMovie(movies.data[k])
    ensures |ReviewsBatch(reviews).data| == |reviews.data|
    ensures forall k :: 0 <= k < |reviews.data| ==> ReviewsBatch(reviews).data[k] == ToReview(reviews.data[k])
    ensures |CreditsBatch(credits).data| == |credits.data|
    ensures forall k :: 0 <= k < |credits.data| ==> CreditsBatch(credits).data[k] == ToCredit(credits.data[k])
    ensures MoviesBatch(movies).header == Header(movies.header.weight, movies.header.totalWeight, "")
    ensures ReviewsBatch(reviews).header == Header(reviews.header.weight, reviews.header.totalWeight, "")
    ensures CreditsBatch(credits).header == Header(credits.header.weight, credits.header.totalWeight, "")
  {
  }

  // ----- Sharding and sending -----

  /** divideBatchInShards: one batch per shard, each with the input header and
      the items whose shard is its position plus one. */
  method DivideBatchInShards<T>(batch: Batch<T>, shards: nat, getKey: T -> string, getShard: (string, int) -> int)
    returns (buckets: seq<Batch<T>>)
    ensures |buckets| == shards
    ensures forall i :: 0 <= i < shards ==>
              buckets[i] == Batch(batch.header, Bucket(batch.data, ShardOf(getKey, getShard, shards), i + 1))
  {
    var bucketShards := new Batch<T>[shards](_ => Batch(batch.header, []));
    for i := 0 to shards
      invariant forall j :: 0 <= j < i ==>
                  bucketShards[j] == Batch(batch.header, Bucket(batch.data, ShardOf(getKey, getShard, shards), j + 1))
    {
      var keep := (item: T) => getShard(getKey(item), shards) == i + 1;
      var data := Filter(batch.data, keep);
      BucketIsFiltered(batch.data, ShardOf(getKey, getShard, shards), i + 1, keep);
      bucketShards[i] := Batch(batch.header, data);
    }
    buckets := bucketShards[..];
  }

  /** The first shard id in `from`..shards that has no channel, if any. */
  function MissingShard<C>(chans: map<int, C>, shards: nat, from: nat := 1): (r: Option<int>)
    ensures r.None? <==> forall id :: from <= id <= shards ==> id in chans
    ensures r.Some? ==> from <= r.value <= shards && r.value !in chans
    ensures r.Some? ==> forall id :: from <= id < r.value ==> id in chans
    decreases shards + 1 - from
  {
    if from > shards then None
    else if from !in chans then Some(from)
    else MissingShard(chans, shards, from + 1)
  }

  /** What shard `id` is sent: an EOF batch unchanged, otherwise the batch
      restricted to the shard's bucket. */
  function ShardPayload<T>(batch: Batch<T>, shards: nat, getKey: T -> string, getShard: (string, int) -> int, id: int): Batch<T>
  {
    if batch.IsEof() then batch
    else Batch(batch.header, Bucket(batch.data, ShardOf(getKey, getShard, shards), id))
  }

  /** The channels after sendBatchMap: shards 1..shards in ascending order each
      receive their payload, up to (not including) the first shard without a
      channel. */
  function Sent<T>(batch: Batch<T>, shards: nat, chans: map<int, seq<Batch<T>>>,
                   getKey: T -> string, getShard: (string, int) -> int): map<int, seq<Batch<T>>>
  {
    var last := match MissingShard(chans, shards) case Some(m) => m - 1 case None => shards;
    map id | id in chans :: if 1 <= id <= last then chans[id] + [ShardPayload(batch, shards, getKey, getShard, id)] else chans[id]
  }

  /** The channels once shards 1..upto have been sent their payloads. */
  ghost predicate SentUpTo<T>(out: map<int, seq<Batch<T>>>, batch: Batch<T>, shards: nat, chans: map<int, seq<Batch<T>>>,
                        getKey: T -> string, getShard: (string, int) -> int, upto: int)
  {
    && out.Keys == chans.Keys
    && forall j :: j in chans ==>
         out[j] == if 1 <= j <= upto then chans[j] + [ShardPayload(batch, shards, getKey, getShard, j)] else chans[j]
  }

  /** Sending shard id its payload extends what has been sent by one shard. */
  lemma SentUpToStep<T>(out: map<int, seq<Batch<T>>>, batch: Batch<T>, shards: nat, chans: map<int, seq<Batch<T>>>,
                        getKey: T -> string, getShard: (string, int) -> int, id: int, payload: Batch<T>)
    requires SentUpTo(out, batch, shards, chans, getKey, getShard, id - 1)
    requires 1 <= id && id in out && payload == ShardPayload(batch, shards, getKey, getShard, id)
    ensures SentUpTo(out[id := out[id] + [payload]], batch, shards, chans, getKey, getShard, id)
  {
  }

  /** Stopping at the first missing channel, or after the last shard, leaves the
      channels as Sent describes. */
  lemma SentWhenStopped<T>(out: map<int, seq<Batch<T>>>, batch: Batch<T>, shards: nat, chans: map<int, seq<Batch<T>>>,
                           getKey: T -> string, getShard: (string, int) -> int, upto: int)
    requires SentUpTo(out, batch, shards, chans, getKey, getShard, upto)
    requires upto == match MissingShard(chans, shards) case Some(m) => m - 1 case None => shards
    ensures out == Sent(batch, shards, chans, getKey, getShard)
  {
  }

  /** sendBatchMap; the error is the shard id that has no channel. */
  method SendBatchMap<T>(batch: Batch<T>, shards: nat, chans: map<int, seq<Batch<T>>>,
                         getKey: T -> string, getShard: (string, int) -> int)
    returns (out: map<int, seq<Batch<T>>>, err: Option<int>)
    ensures err == MissingShard(chans, shards)
    ensures out == Sent(batch, shards, chans, getKey, getShard)
  {
    if batch.IsEof() {
      out, err := SendEofToShards(batch, shards, chans, getKey, getShard);
      return;
    }
    out := chans;
    var shardsBatches := DivideBatchInShards(batch, shards, getKey, getShard);
    for id := 1 to shards + 1
      invariant forall j :: 1 <= j < id ==> j in chans
      invariant SentUpTo(out, batch, shards, chans, getKey, getShard, id - 1)
    {
      var data := shardsBatches[id - 1];
      if id !in out {
        err := Some(id);
        SentWhenStopped(out, batch, shards, chans, getKey, getShard, id - 1);
        return;
      }
      SentUpToStep(out, batch, shards, chans, getKey, getShard, id, data);
      out := out[id := out[id] + [data]];
    }
    err := None;
    SentWhenStopped(out, batch, shards, chans, getKey, getShard, shards);
  }

  /** sendBatchMap's EOF branch: the batch itself goes to every shard. */
  method SendEofToShards<T>(batch: Batch<T>, shards: nat, chans: map<int, seq<Batch<T>>>,
                            getKey: T -> string, getShard: (string, int) -> int)
    returns (out: map<int, seq<Batch<T>>>, err: Option<int>)
    requires batch.IsEof()
    ensures err == MissingShard(chans, shards)
    ensures out == Sent(batch, shards, chans, getKey, getShard)
  {
    out := chans;
    for id := 1 to shards + 1
      invariant forall j :: 1 <= j < id ==> j in chans
      invariant SentUpTo(out, batch, shards, chans, getKey, getShard, id - 1)
    {
      if id !in out {
        err := Some(id);
        SentWhenStopped(out, batch, shards, chans, getKey, getShard, id - 1);
        return;
      }
      SentUpToStep(out, batch, shards, chans, getKey, getShard, id, batch);
      out := out[id := out[id] + [batch]];
    }
    err := None;
    SentWhenStopped(out, batch, shards, chans, getKey, getShard, shards);
  }

  /** With a channel for every shard, an EOF batch is sent unchanged, once, to
      every shard, and nothing else is sent. */
  lemma EofSentToEveryShard<T>(batch: Batch<T>, shards: nat, chans: map<int, seq<Batch<T>>>,
                               getKey: T -> string, getShard: (string, int) -> int)
    requires batch.IsEof()
    requires forall id :: 1 <= id <= shards ==> id in chans
    ensures Sent(batch, shards, chans, getKey, getShard).Keys == chans.Keys
    ensures forall id :: 1 <= id <= shards ==> Sent(batch, shards, chans, getKey, getShard)[id] == chans[id] + [batch]
    ensures forall id :: id in chans && !(1 <= id <= shards) ==> Sent(batch, shards, chans, getKey, getShard)[id] == chans[id]
  {
  }

  /** With a channel for every shard, a data batch sends shard id its bucket,
      with the original header; when every key's shard is in 1..shards, the
      buckets sent hold exactly the batch's items. */
  lemma DataSentByBucket<T>(batch: Batch<T>, shards: nat, chans: map<int, seq<Batch<T>>>,
                            getKey: T -> string, getShard: (string, int) -> int)
    requires !batch.IsEof()
    requires forall id :: 1 <= id <= shards ==> id in chans
    ensures forall id :: 1 <= id <= shards ==>
              Sent(batch, shards, chans, getKey, getShard)[id]
                == chans[id] + [Batch(batch.header, Bucket(batch.data, ShardOf(getKey, getShard, shards), id))]
    ensures (forall k :: 0 <= k < |batch.data| ==> 1 <= getShard(getKey(batch.data[k]), shards) <= shards) ==>
              Buckets(batch.data, ShardOf(getKey, getShard, shards), shards) == multiset(batch.data)
  {
    if forall k :: 0 <= k < |batch.data| ==> 1 <= getShard(getKey(batch.data[k]), shards) <= shards {
      BucketsPartition(batch.data, ShardOf(getKey, getShard, shards), shards);
    }
  }

  // ----- preprocessBatch -----

  /** The outcome of decoding a message body as each of the three raw batch
      types; None where decoding fails. */
  datatype Body = Body(
    movies: Option<RawBatch<RawMovie>>,
    reviews: Option<RawBatch<RawReview>>,
    credits: Option<RawBatch<RawCredits>>)

  datatype ToProcessMsg = ToProcessMsg(kind: string, clientId: string, body: Body)

  datatype PreprocessError =
    | DecodeFailed(kind: string)
    | MissingChan(kind: string, shard: int)
    | UnknownType(kind: string)

  /** What a movies batch becomes: an EOF batch carrying only the total, or the
      preprocessed data batch. */
  function MoviesPayload(batch: RawBatch<RawMovie>): (b: Batch<Movie>)
    ensures b.IsEof() == batch.IsEof()
    ensures batch.IsEof() ==> b.data == [] && b.header.weight == 0
  {
    if batch.IsEof() then MakeEOFBatch(batch.header.totalWeight) else MoviesBatch(batch)
  }

  /** The shard ids 1..shards. */
  function ShardIds(shards: nat): (r: set<int>)
    ensures forall id :: id in r <==> 1 <= id <= shards
  {
    if shards == 0 then {} else ShardIds(shards - 1) + {shards}
  }

  function AsChanError(kind: string, missing: Option<int>): Option<PreprocessError>
  {
    match missing
    case None => None
    case Some(id) => Some(MissingChan(kind, id))
  }

  function ReviewKey(r: Review): string { r.movieId }
  function CreditKey(c: Credit): string { c.movieId }

  class Preprocessor {
    const shards: nat
    const getShard: (string, int) -> int
    /** The batches sent on each of MOVIE_QUEUES, in that order. */
    var moviesQueues: seq<seq<Batch<Movie>>>
    /** The batches sent to each joiner shard's reviews topic. */
    var reviewsQueues: map<int, seq<Batch<Review>>>
    /** The batches sent to each joiner shard's credits topic. */
    var creditsQueues: map<int, seq<Batch<Credit>>>

    /** One movies queue per name, and a reviews and a credits channel for every shard. */
    ghost predicate Valid()
      reads this
    {
      && |moviesQueues| == |MOVIE_QUEUES|
      && (forall id :: 1 <= id <= shards ==> id in reviewsQueues && id in creditsQueues)
    }

    constructor(shards: nat, getShard: (string, int) -> int)
      ensures Valid()
      ensures this.shards == shards && this.getShard == getShard
      ensures moviesQueues == [[], [], [], []]
      ensures reviewsQueues == map id | id in ShardIds(shards) :: []
      ensures creditsQueues == map id | id in ShardIds(shards) :: []
    {
      this.shards := shards;
      this.getShard := getShard;
      moviesQueues := [[], [], [], []];
      reviewsQueues := map id | id in ShardIds(shards) :: [];
      creditsQueues := map id | id in ShardIds(shards) :: [];
    }

    /** preprocessBatch: dispatch on the message type. */
    method PreprocessBatch(msg: ToProcessMsg) returns (err: Option<PreprocessError>)
      modifies this
      ensures msg.kind == "movies" && msg.body.movies.Some? ==>
                && err.None?
                && |moviesQueues| == |old(moviesQueues)|
                && (forall i :: 0 <= i < |moviesQueues| ==>
                      moviesQueues[i] == old(moviesQueues[i]) + [MoviesPayload(msg.body.movies.value)])
                && reviewsQueues == old(reviewsQueues) && creditsQueues == old(creditsQueues)
      ensures msg.kind == "reviews" && msg.body.reviews.Some? ==>
                var batch := ReviewsBatch(msg.body.reviews.value);
                && err == AsChanError("reviews", MissingShard(old(reviewsQueues), shards))
                && reviewsQueues == Sent(batch, shards, old(reviewsQueues), ReviewKey, getShard)
                && moviesQueues == old(moviesQueues) && creditsQueues == old(creditsQueues)
      ensures msg.kind == "credits" && msg.body.credits.Some? ==>
                var batch := CreditsBatch(msg.body.credits.value);
                && err == AsChanError("credits", MissingShard(old(creditsQueues), shards))
                && creditsQueues == Sent(batch, shards, old(creditsQueues), CreditKey, getShard)
                && moviesQueues == old(moviesQueues) && reviewsQueues == old(reviewsQueues)
      ensures (msg.kind == "movies" && msg.body.movies.None?)
              || (msg.kind == "reviews" && msg.body.reviews.None?)
              || (msg.kind == "credits" && msg.body.credits.None?) ==>
                err == Some(DecodeFailed(msg.kind)) && unchanged(this)
      ensures msg.kind !in {"movies", "reviews", "credits"} ==> err == Some(UnknownType(msg.kind)) && unchanged(this)
      ensures old(Valid()) ==> Valid() && !(err.Some? && err.value.MissingChan?)
    {
      match msg.kind {
        case "movies" =>
          if msg.body.movies.None? {
            return Some(DecodeFailed(msg.kind));
          }
          var mb := msg.body.movies.value;
          var payload: Batch<Movie>;
          if mb.IsEof() {
            payload := MakeEOFBatch(mb.header.totalWeight);
          } else {
            payload := PreprocessMovies(mb);
          }
          var queues := moviesQueues;
          for i := 0 to |queues|
            invariant |queues| == |moviesQueues|
            invariant forall j :: 0 <= j < i ==> queues[j] == moviesQueues[j] + [payload]
            invariant forall j :: i <= j < |queues| ==> queues[j] == moviesQueues[j]
          {
            queues := queues[i := queues[i] + [payload]];
          }
          moviesQueues := queues;
          return None;
        case "reviews" =>
          if msg.body.reviews.None? {
            return Some(DecodeFailed(msg.kind));
          }
          var batch := PreprocessReviews(msg.body.reviews.value);
          var out, missing := SendBatchMap(batch, shards, reviewsQueues, ReviewKey, getShard);
          assert out.Keys == reviewsQueues.Keys;
          reviewsQueues := out;
          return AsChanError("reviews", missing);
        case "credits" =>
          if msg.body.credits.None? {
            return Some(DecodeFailed(msg.kind));
          }
          var batch := PreprocessCredits(msg.body.credits.value);
          var out, missing := SendBatchMap(batch, shards, creditsQueues, CreditKey, getShard);
          assert out.Keys == creditsQueues.Keys;
          creditsQueues := out;
          return AsChanError("credits", missing);
        case _ =>
          return Some(UnknownType(msg.kind));
      }
    }
  }
}
