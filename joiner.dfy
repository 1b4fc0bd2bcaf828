/** A joiner's per-client state (server/joiner/service.go; server/joiner/
    session.go is the same type under another name and is modelled by the
    same class): the movies of the client's shard, and for movies, reviews
    and credits the weight received so far and the total announced by the
    EOF batch. Reviews are joined with the stored movies, credits filtered by
    them. */
module Joiner {
  import opened Wrappers
  import opened Machine
  import opened Utils
  import opened Batches
  import opened Records

  /** The total a counter expects before any EOF batch arrived. */
  const NO_EXPECTATION: i32 := -1

  /** The received weight of one stream and the total it expects. */
  datatype Counter = Counter(received: u32, toExpect: i32)
  {
    /** The comparison of AllMoviesReceived and IsDone, with Go's uint32
        conversion of the expected total. */
    predicate Complete()
    {
      received == U32OfI32(toExpect)
    }
  }

  /** An EOF header records its total; any other adds its weight (mod 2^32). */
  function Notified(c: Counter, h: Header): Counter
  {
    if h.IsEof() then c.(toExpect := h.totalWeight) else c.(received := AddU32(c.received, h.weight))
  }

  /** The counter after a whole sequence of headers. */
  function NotifiedAll(c: Counter, hs: seq<Header>): Counter
  {
    if hs == [] then c else Notified(NotifiedAll(c, hs[..|hs| - 1]), hs[|hs| - 1])
  }

  /** The sum of the weights of the data (non-EOF) headers. */
  function DataWeight(hs: seq<Header>): nat
  {
    if hs == [] then 0
    else DataWeight(hs[..|hs| - 1]) + if hs[|hs| - 1].IsEof() then 0 else hs[|hs| - 1].weight
  }

  /** The total of the last EOF header, or `default` when there is none. */
  function LastTotal(hs: seq<Header>, default: i32): (t: i32)
    ensures t == default || exists k :: 0 <= k < |hs| && hs[k].IsEof() && t == hs[k].totalWeight
  {
    if hs == [] then default
    else if hs[|hs| - 1].IsEof() then hs[|hs| - 1].totalWeight
    else LastTotal(hs[..|hs| - 1], default)
  }

  /** A counter ends up with the wrapped sum of the data weights, and expects
      the total of the last EOF header, if any. */
  lemma {:induction false} NotifiedAllCounts(c: Counter, hs: seq<Header>)
    ensures NotifiedAll(c, hs).received == (c.received + DataWeight(hs)) % U32_LIMIT
    ensures NotifiedAll(c, hs).toExpect == LastTotal(hs, c.toExpect)
  {
    if hs == [] {
      SmallMod32(c.received);
    } else {
      var init, h := hs[..|hs| - 1], hs[|hs| - 1];
      NotifiedAllCounts(c, init);
      var before := NotifiedAll(c, init);
      if !h.IsEof() {
        assert DataWeight(hs) == DataWeight(init) + h.weight;
        WrapStep32(c.received + DataWeight(init), before.received, h.weight);
      }
    }
  }

  /** What completion means for each kind of expectation: with none yet, the
      received weight must be 2^32 - 1; with a positive total, equal to it. */
  lemma CompleteMeaning(c: Counter)
    ensures c.toExpect == NO_EXPECTATION ==> (c.Complete() <==> c.received == U32_LIMIT - 1)
    ensures c.toExpect >= 0 ==> (c.Complete() <==> c.received == c.toExpect)
  {
  }

  /** A fresh counter fed a stream that ends with an EOF batch, whose data
      weights do not wrap around, is complete exactly when those weights add
      up to the announced total. */
  lemma StreamComplete(hs: seq<Header>)
    requires hs != [] && hs[|hs| - 1].IsEof()
    requires DataWeight(hs) < U32_LIMIT
    ensures NotifiedAll(Counter(0, NO_EXPECTATION), hs).Complete() <==> DataWeight(hs) == hs[|hs| - 1].totalWeight
  {
    NotifiedAllCounts(Counter(0, NO_EXPECTATION), hs);
    SmallMod32(DataWeight(hs));
  }

  /** The values of a JoinerService's fields. */
  datatype JoinerState = JoinerState(movies: seq<Movie>, movieCount: Counter, reviewCount: Counter, creditCount: Counter)

  /** NewJoinerService: no movies, nothing received, nothing expected. */
  const INITIAL: JoinerState :=
    JoinerState([], Counter(0, NO_EXPECTATION), Counter(0, NO_EXPECTATION), Counter(0, NO_EXPECTATION))

  /** SaveMovies: an EOF batch only records its total; a data batch appends its
      movies and adds its weight. */
  function SavedMovies(s: JoinerState, batch: Batch<Movie>): JoinerState
  {
    if batch.IsEof() then s.(movieCount := Notified(s.movieCount, batch.header))
    else s.(movies := s.movies + batch.data, movieCount := Notified(s.movieCount, batch.header))
  }

  function NotifiedReview(s: JoinerState, h: Header): JoinerState
  {
    s.(reviewCount := Notified(s.reviewCount, h))
  }

  function NotifiedCredit(s: JoinerState, h: Header): JoinerState
  {
    s.(creditCount := Notified(s.creditCount, h))
  }

  predicate AllMoviesIn(s: JoinerState)
  {
    s.movieCount.Complete()
  }

  predicate Done(s: JoinerState)
  {
    s.creditCount.Complete() && s.reviewCount.Complete()
  }

  /** A new session has received nothing: it is neither ready to join nor
      done, since nothing short of 2^32 - 1 weight matches an unset total. */
  lemma InitialNotReady()
    ensures !AllMoviesIn(INITIAL) && !Done(INITIAL)
  {
  }

  /** The state after SaveMovies for each of `batches`. */
  function SavedAll(s: JoinerState, batches: seq<Batch<Movie>>): JoinerState
  {
    if batches == [] then s else SavedMovies(SavedAll(s, batches[..|batches| - 1]), batches[|batches| - 1])
  }

  function Headers<T>(batches: seq<Batch<T>>): (hs: seq<Header>)
    ensures |hs| == |batches| && forall k :: 0 <= k < |batches| ==> hs[k] == batches[k].header
  {
    seq(|batches|, k requires 0 <= k < |batches| => batches[k].header)
  }

  /** The movies of the data batches, in arrival order. */
  function MovieData(batches: seq<Batch<Movie>>): seq<Movie>
  {
    if batches == [] then []
    else
      var b := batches[|batches| - 1];
      MovieData(batches[..|batches| - 1]) + if b.IsEof() then [] else b.data
  }

  /** Saving a stream of movie batches appends the data batches' movies in
      order, counts their weights and the last EOF total, and leaves the
      review and credit counters alone. */
  lemma {:induction false} SavedAllMeaning(s: JoinerState, batches: seq<Batch<Movie>>)
    ensures SavedAll(s, batches).movies == s.movies + MovieData(batches)
    ensures SavedAll(s, batches).movieCount == NotifiedAll(s.movieCount, Headers(batches))
    ensures SavedAll(s, batches).reviewCount == s.reviewCount
    ensures SavedAll(s, batches).creditCount == s.creditCount
  {
    if batches != [] {
      var init := batches[..|batches| - 1];
      SavedAllMeaning(s, init);
      assert Headers(batches)[..|batches| - 1] == Headers(init);
    }
  }

  // ----- The join -----

  /** joinReview: one MovieReview per stored movie with the review's movie ID,
      in the order of the stored movies. */
  function JoinReview(movies: seq<Movie>, r: Review): seq<MovieReview>
  {
    Mapped(Filtered(movies, (m: Movie) => m.id == r.movieId), (m: Movie) => MovieReview(m.id, m.title, r.rating))
  }

  /** join: the joins of the reviews, concatenated in review order. */
  function Joined(movies: seq<Movie>, reviews: seq<Review>): seq<MovieReview>
  {
    Concat(Mapped(reviews, (r: Review) => JoinReview(movies, r)))
  }

  /** The join of one review: one record per stored movie with its movie
      ID. */
  lemma JoinReviewMembers(movies: seq<Movie>, r: Review, x: MovieReview)
    ensures x in JoinReview(movies, r) <==>
              exists j :: 0 <= j < |movies| && movies[j].id == r.movieId
                && x == MovieReview(movies[j].id, movies[j].title, r.rating)
  {
    var matching := Filtered(movies, (m: Movie) => m.id == r.movieId);
    if x in JoinReview(movies, r) {
      var k :| 0 <= k < |matching| && x == MovieReview(matching[k].id, matching[k].title, r.rating);
      FilteredMembers(movies, (m: Movie) => m.id == r.movieId, matching[k]);
      var j :| 0 <= j < |movies| && movies[j] == matching[k];
      assert movies[j].id == r.movieId;
    }
    if exists j :: 0 <= j < |movies| && movies[j].id == r.movieId
         && x == MovieReview(movies[j].id, movies[j].title, r.rating) {
      var j :| 0 <= j < |movies| && movies[j].id == r.movieId
                && x == MovieReview(movies[j].id, movies[j].title, r.rating);
      FilteredMembers(movies, (m: Movie) => m.id == r.movieId, movies[j]);
      var k :| 0 <= k < |matching| && matching[k] == movies[j];
      assert JoinReview(movies, r)[k] == x;
    }
  }

  /** A joined record comes from one review and one stored movie with that
      review's movie ID, carrying the movie's ID and title and the review's
      rating; every such pair yields one. */
  lemma JoinedMembers(movies: seq<Movie>, reviews: seq<Review>, x: MovieReview)
    ensures x in Joined(movies, reviews) <==>
              exists i, j :: 0 <= i < |reviews| && 0 <= j < |movies| && movies[j].id == reviews[i].movieId
                && x == MovieReview(movies[j].id, movies[j].title, reviews[i].rating)
  {
    var joins := Mapped(reviews, (r: Review) => JoinReview(movies, r));
    ConcatMembers(joins, x);
    if x in Joined(movies, reviews) {
      var i :| 0 <= i < |joins| && x in joins[i];
      JoinReviewMembers(movies, reviews[i], x);
    }
    if exists i, j :: 0 <= i < |reviews| && 0 <= j < |movies| && movies[j].id == reviews[i].movieId
                && x == MovieReview(movies[j].id, movies[j].title, reviews[i].rating) {
      var i, j :| 0 <= i < |reviews| && 0 <= j < |movies| && movies[j].id == reviews[i].movieId
                && x == MovieReview(movies[j].id, movies[j].title, reviews[i].rating);
      JoinReviewMembers(movies, reviews[i], x);
      assert x in joins[i];
    }
  }


  /** Joining two runs of reviews gives the two joins one after the other. */
  lemma JoinedAppend(movies: seq<Movie>, a: seq<Review>, b: seq<Review>)
    ensures Joined(movies, a + b) == Joined(movies, a) + Joined(movies, b)
  {
    var f := (r: Review) => JoinReview(movies, r);
    MappedAppend(a, b, f);
    ConcatAppend(Mapped(a, f), Mapped(b, f));
  }

  /** With no stored movies nothing is joined. */
  lemma {:induction false} JoinedNoMovies(reviews: seq<Review>)
    ensures Joined([], reviews) == []
  {
    var joins := Mapped(reviews, (r: Review) => JoinReview([], r));
    ConcatLength(joins);
    EmptyTotalLength(joins);
  }

  lemma {:induction false} EmptyTotalLength<T>(ss: seq<seq<T>>)
    requires forall k :: 0 <= k < |ss| ==> ss[k] == []
    ensures TotalLength(ss) == 0
  {
    if ss != [] {
      EmptyTotalLength(ss[..|ss| - 1]);
    }
  }

  // ----- The credit filter -----

  /** The IDs of the stored movies. */
  function MovieIds(movies: seq<Movie>): set<string>
  {
    set m | m in movies :: m.id
  }

  /** filterCredits: the credits of stored movies, in order. */
  function FilteredCredits(movies: seq<Movie>, data: seq<Credit>): seq<Credit>
  {
    Filtered(data, (c: Credit) => c.movieId in MovieIds(movies))
  }

  /** A credit survives exactly when a stored movie has its movie ID, and then
      as often as it was sent. */
  lemma FilteredCreditsMeaning(movies: seq<Movie>, data: seq<Credit>, c: Credit)
    ensures c in FilteredCredits(movies, data) <==> c in data && exists m :: m in movies && m.id == c.movieId
    ensures multiset(FilteredCredits(movies, data))[c] ==
              if exists m :: m in movies && m.id == c.movieId then multiset(data)[c] else 0
  {
    FilteredMembers(data, (c: Credit) => c.movieId in MovieIds(movies), c);
    FilteredCount(data, (c: Credit) => c.movieId in MovieIds(movies), c);
  }

  class JoinerService {
    var movies: seq<Movie>
    var moviesReceived: u32
    var reviewsReceived: u32
    var creditsReceived: u32
    var moviesToExpect: i32
    var reviewsToExpect: i32
    var creditsToExpect: i32

    function State(): JoinerState
      reads this
    {
      JoinerState(movies, Counter(moviesReceived, moviesToExpect), Counter(reviewsReceived, reviewsToExpect),
                  Counter(creditsReceived, creditsToExpect))
    }

    /** NewJoinerService. */
    constructor()
      ensures State() == INITIAL
    {
      movies := [];
      moviesReceived, reviewsReceived, creditsReceived := 0, 0, 0;
      moviesToExpect, reviewsToExpect, creditsToExpect := -1, -1, -1;
    }

    method SaveMovies(batch: Batch<Movie>)
      modifies this
      ensures State() == SavedMovies(old(State()), batch)
    {
      if batch.IsEof() {
        moviesToExpect := batch.header.totalWeight;
        return;
      }
      movies := movies + batch.data;
      moviesReceived := AddU32(moviesReceived, batch.header.weight);
    }

    method GetMovies() returns (r: seq<Movie>)
      ensures r == movies
    {
      return movies;
    }

    predicate AllMoviesReceived()
      reads this
    {
      moviesReceived == U32OfI32(moviesToExpect)
    }

    method NotifyCredit(header: Header)
      modifies this
      ensures State() == NotifiedCredit(old(State()), header)
    {
      if header.IsEof() {
        creditsToExpect := header.totalWeight;
      } else {
        creditsReceived := AddU32(creditsReceived, header.weight);
      }
    }

    method NotifyReview(header: Header)
      modifies this
      ensures State() == NotifiedReview(old(State()), header)
    {
      if header.IsEof() {
        reviewsToExpect := header.totalWeight;
      } else {
        reviewsReceived := AddU32(reviewsReceived, header.weight);
      }
    }

    predicate IsDone()
      reads this
    {
      creditsReceived == U32OfI32(creditsToExpect) && reviewsReceived == U32OfI32(reviewsToExpect)
    }

    /** The class's queries agree with the state-level predicates. */
    lemma QueriesMatchState()
      ensures AllMoviesReceived() <==> AllMoviesIn(State())
      ensures IsDone() <==> Done(State())
    {
    }

    /** join, through common.Map and common.Flatten. */
    method Join(reviews: seq<Review>) returns (r: seq<MovieReview>)
      ensures r == Joined(movies, reviews)
    {
      var stored := GetMovies();
      var joinedReviews := Map(reviews, (review: Review) => JoinReview(stored, review));
      r := Flatten(joinedReviews);
    }

    /** filterCredits: a set of the stored IDs, built in a loop, then common.Filter. */
    method FilterCredits(data: seq<Credit>) returns (r: seq<Credit>)
      ensures r == FilteredCredits(movies, data)
    {
      var stored := GetMovies();
      var movieIds := Map(stored, (m: Movie) => m.id);
      var ids: map<string, bool> := map[];
      for i := 0 to |movieIds|
        invariant forall id :: id in ids ==> ids[id]
        invariant forall id :: id in ids <==> exists k :: 0 <= k < i && movieIds[k] == id
      {
        ids := ids[movieIds[i] := true];
      }
      var keep := (c: Credit) => c.movieId in ids && ids[c.movieId];
      var storedIds := MovieIds(stored);
      forall k | 0 <= k < |data|
        ensures keep(data[k]) == (data[k].movieId in storedIds)
      {
        if data[k].movieId in storedIds {
          var m :| m in stored && m.id == data[k].movieId;
          var j :| 0 <= j < |stored| && stored[j] == m;
          assert movieIds[j] == data[k].movieId;
        }
      }
      r := Filter(data, keep);
      FilteredCongruent(data, keep, (c: Credit) => c.movieId in storedIds);
    }
  }
}
