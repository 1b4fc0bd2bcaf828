/** The joiner's controller (server/joiner/controller.go): a session per
    client, created on first use and dropped once the client's reviews and
    credits are all in; review batches that arrive before the client's movies
    are complete are buffered and replayed, in arrival order, once they are.
    The select loop is modelled by one method per input queue, each handling
    one message; the replay the source starts in a goroutine runs here to
    completion inside the movie step. The queues to the reducers are the
    sequences `q3Sent` and `q4Sent`. */
module JoinerControl {
  import opened Wrappers
  import opened Machine
  import opened Batches
  import opened Records
  import opened Joiner
  import Utils

  /** The state of a client's session, None when it has none. */
  function Got(o: Option<JoinerState>): JoinerState
  {
    if o.Some? then o.value else INITIAL
  }

  /** cleanSession: a done session is dropped. */
  function Cleaned(s: JoinerState): (o: Option<JoinerState>)
    ensures o.None? <==> Done(s)
    ensures o.Some? ==> o.value == s
  {
    if Done(s) then None else Some(s)
  }

  /** joinReviewBatch followed by cleanSession, on the client's session
      (created if missing): the batch is counted, and the session dropped if
      that makes it done. */
  function ReviewState(o: Option<JoinerState>, batch: Batch<Review>): Option<JoinerState>
  {
    Cleaned(NotifiedReview(Got(o), batch.header))
  }

  /** What joinReviewBatch sends: the batch joined with the session's movies,
      under the same header. */
  function ReviewSent(o: Option<JoinerState>, batch: Batch<Review>): Batch<MovieReview>
  {
    Batch(batch.header, Joined(Got(o).movies, batch.data))
  }

  /** The client's session after joinStoredReviewBatches replays `batches`. */
  function ReplayedState(o: Option<JoinerState>, batches: seq<Batch<Review>>): Option<JoinerState>
  {
    if batches == [] then o else ReviewState(ReplayedState(o, batches[..|batches| - 1]), batches[|batches| - 1])
  }

  /** What joinStoredReviewBatches sends while replaying `batches`. */
  function ReplayedSent(o: Option<JoinerState>, batches: seq<Batch<Review>>): seq<Batch<MovieReview>>
  {
    if batches == [] then []
    else
      var init := batches[..|batches| - 1];
      ReplayedSent(o, init) + [ReviewSent(ReplayedState(o, init), batches[|batches| - 1])]
  }

  /** Replaying a longer buffer continues from where the shorter one stopped. */
  lemma {:induction false} ReplayedStateAppend(o: Option<JoinerState>, a: seq<Batch<Review>>, b: seq<Batch<Review>>)
    ensures ReplayedState(o, a + b) == ReplayedState(ReplayedState(o, a), b)
    decreases |b|
  {
    if b == [] {
      assert a + b == a;
    } else {
      var b' := b[..|b| - 1];
      assert (a + b)[..|a + b| - 1] == a + b';
      ReplayedStateAppend(o, a, b');
    }
  }

  /** What a longer buffer sends is what the shorter one sent, followed by
      what the rest sends from the state the shorter one left. */
  lemma {:induction false} ReplayedSentAppend(o: Option<JoinerState>, a: seq<Batch<Review>>, b: seq<Batch<Review>>)
    ensures ReplayedSent(o, a + b) == ReplayedSent(o, a) + ReplayedSent(ReplayedState(o, a), b)
    decreases |b|
  {
    if b == [] {
      assert a + b == a;
    } else {
      var b' := b[..|b| - 1];
      var last := b[|b| - 1];
      assert (a + b)[..|a + b| - 1] == a + b';
      assert (a + b)[|a + b| - 1] == last;
      ReplayedSentAppend(o, a, b');
      ReplayedStateAppend(o, a, b');
      var mid := ReplayedState(o, a);
      var step := ReviewSent(ReplayedState(mid, b'), last);
      assert ReplayedSent(o, a + b) == ReplayedSent(o, a + b') + [step];
      assert ReplayedSent(mid, b) == ReplayedSent(mid, b') + [step];
      Utils.AppendAssoc(ReplayedSent(o, a), ReplayedSent(mid, b'), [step]);
    }
  }

  /** The replay sends one batch per stored batch, in order, each with the
      stored batch's header. */
  lemma {:induction false} ReplayedSends(o: Option<JoinerState>, batches: seq<Batch<Review>>)
    ensures |ReplayedSent(o, batches)| == |batches|
    ensures forall k :: 0 <= k < |batches| ==> ReplayedSent(o, batches)[k].header == batches[k].header
  {
    if batches != [] {
      var init := batches[..|batches| - 1];
      ReplayedSends(o, init);
      var sent := ReplayedSent(o, batches);
      assert sent[..|init|] == ReplayedSent(o, init);
      forall k | 0 <= k < |batches|
        ensures sent[k].header == batches[k].header
      {
        if k < |init| {
          assert sent[k] == ReplayedSent(o, init)[k];
          assert batches[k] == init[k];
        }
      }
    }
  }

  /** `x` carries the ID and title of one of `movies`. */
  predicate FromMovie(x: MovieReview, movies: seq<Movie>)
  {
    exists m :: m in movies && m.id == x.movieId && m.title == x.title
  }

  /** During a replay a session either keeps its movies or, once dropped and
      re-created, has none. */
  lemma {:induction false} ReplayedKeepsMovies(o: Option<JoinerState>, batches: seq<Batch<Review>>)
    ensures Got(ReplayedState(o, batches)).movies == Got(o).movies || Got(ReplayedState(o, batches)).movies == []
  {
    if batches != [] {
      ReplayedKeepsMovies(o, batches[..|batches| - 1]);
    }
  }

  /** So everything a replay sends joins a review with one of the movies the
      session had when the replay started. */
  lemma {:induction false} ReplayedJoinsKnownMovies(o: Option<JoinerState>, batches: seq<Batch<Review>>)
    ensures forall k, x :: 0 <= k < |ReplayedSent(o, batches)| && x in ReplayedSent(o, batches)[k].data ==>
              FromMovie(x, Got(o).movies)
  {
    if batches != [] {
      var init := batches[..|batches| - 1];
      ReplayedJoinsKnownMovies(o, init);
      var o' := ReplayedState(o, init);
      ReplayedKeepsMovies(o, init);
      var batch := batches[|batches| - 1];
      var last := ReviewSent(o', batch);
      var movies := Got(o').movies;
      forall x | x in last.data
        ensures FromMovie(x, Got(o).movies)
      {
        JoinedMembers(movies, batch.data, x);
        var i, j :| 0 <= i < |batch.data| && 0 <= j < |movies| && movies[j].id == batch.data[i].movieId
                    && x == MovieReview(movies[j].id, movies[j].title, batch.data[i].rating);
        assert movies[j] in Got(o).movies;
      }
      var sent := ReplayedSent(o, batches);
      var before := ReplayedSent(o, init);
      assert sent == before + [last];
      forall k, x | 0 <= k < |sent| && x in sent[k].data
        ensures FromMovie(x, Got(o).movies)
      {
        if k < |before| {
          assert sent[k] == before[k];
        } else {
          assert sent[k] == last;
        }
      }
    }
  }

  /** A buffered review batch is, once replayed, treated exactly as if it had
      arrived after the movies: replaying `stored + [b]` is replaying `stored`
      and then taking the review step for `b`. */
  lemma LateBatchIsReplayedLast(o: Option<JoinerState>, stored: seq<Batch<Review>>, b: Batch<Review>)
    ensures ReplayedState(o, stored + [b]) == ReviewState(ReplayedState(o, stored), b)
    ensures ReplayedSent(o, stored + [b]) == ReplayedSent(o, stored) + [ReviewSent(ReplayedState(o, stored), b)]
  {
    assert (stored + [b])[..|stored|] == stored;
  }

  lemma OthersAfterUpdate<K, V>(m: map<K, V>, k: K, v: V)
    ensures m[k := v] - {k} == m - {k}
  {
  }

  lemma OthersAfterRemove<K, V>(m: map<K, V>, k: K)
    ensures (m - {k}) - {k} == m - {k}
  {
  }

  /** One more step of a replay. */
  lemma ReplayStep(o: Option<JoinerState>, batches: seq<Batch<Review>>, i: nat)
    requires i < |batches|
    ensures ReplayedState(o, batches[..i + 1]) == ReviewState(ReplayedState(o, batches[..i]), batches[i])
    ensures ReplayedSent(o, batches[..i + 1]) == ReplayedSent(o, batches[..i]) + [ReviewSent(ReplayedState(o, batches[..i]), batches[i])]
  {
    assert batches[..i + 1][..i] == batches[..i];
  }

  /** The buffered batches of a client; a missing entry reads as none. */
  function StoredOf(m: map<string, seq<Batch<Review>>>, id: string): seq<Batch<Review>>
  {
    if id in m then m[id] else []
  }

  class JoinerController {
    const joinerId: int
    var sessions: map<string, JoinerService>
    var storedReviewBatches: map<string, seq<Batch<Review>>>
    /** Whether run's select has switched from its dummy channel to the review
        and credit queues. */
    var reviewsOpen: bool
    var q3Sent: seq<Batch<MovieReview>>
    var q4Sent: seq<Batch<Credit>>

    /** Distinct clients have distinct session objects. */
    ghost predicate Valid()
      reads this
    {
      forall a, b :: a in sessions && b in sessions && a != b ==> sessions[a] != sessions[b]
    }

    /** The session object of `id`, if any: the only one a message of `id` may change. */
    function Touched(id: string): set<object>
      reads this
    {
      if id in sessions then {sessions[id]} else {}
    }

    function ClientState(id: string): Option<JoinerState>
      reads this, Touched(id)
    {
      if id in sessions then Some(sessions[id].State()) else None
    }

    /** NewJoinerController, without the middleware. */
    constructor(joinerId: int)
      ensures this.joinerId == joinerId && sessions == map[] && storedReviewBatches == map[]
      ensures !reviewsOpen && q3Sent == [] && q4Sent == []
      ensures Valid()
    {
      this.joinerId := joinerId;
      sessions := map[];
      storedReviewBatches := map[];
      reviewsOpen := false;
      q3Sent, q4Sent := [], [];
    }

    /** getSession: the client's session, created and stored if missing. */
    method GetSession(id: string) returns (session: JoinerService)
      requires Valid()
      modifies this
      ensures Valid() && id in sessions && session == sessions[id]
      ensures storedReviewBatches == old(storedReviewBatches) && reviewsOpen == old(reviewsOpen)
      ensures q3Sent == old(q3Sent) && q4Sent == old(q4Sent)
      ensures id in old(sessions) ==> sessions == old(sessions)
      ensures id !in old(sessions) ==> fresh(session) && sessions == old(sessions)[id := session] && session.State() == INITIAL
    {
      if id !in sessions {
        var created := new JoinerService();
        sessions := sessions[id := created];
      }
      session := sessions[id];
    }

    /** cleanSession: the session is dropped iff it is done. The source reads
        the session through a map lookup that must hit. */
    method CleanSession(id: string)
      requires Valid() && id in sessions
      modifies this
      ensures Valid()
      ensures sessions == if Done(old(sessions[id].State())) then old(sessions) - {id} else old(sessions)
      ensures ClientState(id) == Cleaned(old(sessions[id].State()))
      ensures storedReviewBatches == old(storedReviewBatches) && reviewsOpen == old(reviewsOpen)
      ensures q3Sent == old(q3Sent) && q4Sent == old(q4Sent)
    {
      sessions[id].QueriesMatchState();
      if sessions[id].IsDone() {
        sessions := sessions - {id};
      }
    }

    /** storeReviewBatch: appended to the client's buffer. */
    method StoreReviewBatch(id: string, batch: Batch<Review>)
      modifies this
      ensures storedReviewBatches == old(storedReviewBatches)[id := StoredOf(old(storedReviewBatches), id) + [batch]]
      ensures sessions == old(sessions) && reviewsOpen == old(reviewsOpen)
      ensures q3Sent == old(q3Sent) && q4Sent == old(q4Sent)
    {
      storedReviewBatches := storedReviewBatches[id := StoredOf(storedReviewBatches, id) + [batch]];
    }

    /** joinReviewBatch: the client's session (created if missing) counts the
        batch, which is joined with its movies and sent with the same header. */
    method JoinReviewBatch(id: string, batch: Batch<Review>)
      requires Valid()
      modifies this, Touched(id)
      ensures Valid() && id in sessions
      ensures sessions[id].State() == NotifiedReview(Got(old(ClientState(id))), batch.header)
      ensures q3Sent == old(q3Sent) + [ReviewSent(old(ClientState(id)), batch)]
      ensures sessions[id] in old(Touched(id)) || fresh(sessions[id])
      ensures sessions == old(sessions)[id := sessions[id]]
      ensures storedReviewBatches == old(storedReviewBatches) && reviewsOpen == old(reviewsOpen)
      ensures q4Sent == old(q4Sent)
    {
      ghost var before := Got(ClientState(id));
      var session := GetSession(id);
      assert session.State() == before;
      session.NotifyReview(batch.header);
      var reviewXMovies := session.Join(batch.data);
      q3Sent := q3Sent + [Batch(batch.header, reviewXMovies)];
    }

    /** joinStoredReviewBatches: the buffer is emptied, then replayed in order. */
    method JoinStoredReviewBatches(id: string)
      requires Valid()
      modifies this, Touched(id)
      ensures Valid()
      ensures ClientState(id) == ReplayedState(old(ClientState(id)), StoredOf(old(storedReviewBatches), id))
      ensures q3Sent == old(q3Sent) + ReplayedSent(old(ClientState(id)), StoredOf(old(storedReviewBatches), id))
      ensures storedReviewBatches == old(storedReviewBatches)[id := []]
      ensures sessions - {id} == old(sessions) - {id}
      ensures reviewsOpen == old(reviewsOpen) && q4Sent == old(q4Sent)
    {
      var batches := StoredOf(storedReviewBatches, id);
      storedReviewBatches := storedReviewBatches[id := []];
      ghost var start := ClientState(id);
      for i := 0 to |batches|
        invariant Valid()
        invariant id in sessions ==> sessions[id] in old(Touched(id)) || fresh(sessions[id])
        invariant ClientState(id) == ReplayedState(start, batches[..i])
        invariant q3Sent == old(q3Sent) + ReplayedSent(start, batches[..i])
        invariant storedReviewBatches == old(storedReviewBatches)[id := []]
        invariant sessions - {id} == old(sessions) - {id}
        invariant reviewsOpen == old(reviewsOpen) && q4Sent == old(q4Sent)
      {
        ghost var o := ClientState(id);
        ghost var sent := q3Sent;
        ghost var before := sessions;
        ReplayStep(start, batches, i);
        JoinReviewBatch(id, batches[i]);
        ghost var joined := sessions;
        OthersAfterUpdate(before, id, sessions[id]);
        CleanSession(id);
        OthersAfterRemove(joined, id);
        Utils.AppendAssoc(old(q3Sent), ReplayedSent(start, batches[..i]), [ReviewSent(o, batches[i])]);
        assert ClientState(id) == ReviewState(o, batches[i]);
      }
      assert batches[..|batches|] == batches;
    }

    /** The movies case of run: the batch is saved; once the client's movies
        are complete the review and credit queues are opened and the client's
        buffered reviews are replayed. A message that does not decode is
        skipped. */
    method ReceiveMovies(body: Option<Batch<Movie>>)
      requires Valid()
      modifies this, if body.Some? then Touched(body.value.header.clientId) else {}
      ensures Valid()
      ensures body.None? ==>
                && sessions == old(sessions) && storedReviewBatches == old(storedReviewBatches)
                && reviewsOpen == old(reviewsOpen) && q3Sent == old(q3Sent) && q4Sent == old(q4Sent)
      ensures body.Some? ==>
                var id := body.value.header.clientId;
                var s := SavedMovies(Got(old(ClientState(id))), body.value);
                && sessions - {id} == old(sessions) - {id}
                && q4Sent == old(q4Sent)
                && if AllMoviesIn(s) then
                     && reviewsOpen
                     && storedReviewBatches == old(storedReviewBatches)[id := []]
                     && ClientState(id) == ReplayedState(Some(s), StoredOf(old(storedReviewBatches), id))
                     && q3Sent == old(q3Sent) + ReplayedSent(Some(s), StoredOf(old(storedReviewBatches), id))
                   else
                     && ClientState(id) == Some(s) && reviewsOpen == old(reviewsOpen)
                     && storedReviewBatches == old(storedReviewBatches) && q3Sent == old(q3Sent)
    {
      if body.None? {
        return;
      }
      var batch := body.value;
      var clientId := batch.header.GetClientID();
      assert clientId == batch.header.clientId;
      var session := GetSession(clientId);
      session.SaveMovies(batch);
      session.QueriesMatchState();
      if session.AllMoviesReceived() {
        reviewsOpen := true;
        JoinStoredReviewBatches(clientId);
      }
    }

    /** The reviews case of run: a batch for a client whose movies are not
        complete is buffered (its session is still created); otherwise it is
        joined and sent, and the session cleaned. */
    method ReceiveReviews(body: Option<Batch<Review>>)
      requires Valid() && reviewsOpen
      modifies this, if body.Some? then Touched(body.value.header.clientId) else {}
      ensures Valid()
      ensures body.None? ==>
                && sessions == old(sessions) && storedReviewBatches == old(storedReviewBatches)
                && q3Sent == old(q3Sent) && q4Sent == old(q4Sent)
      ensures body.Some? ==>
                var id := body.value.header.clientId;
                var s := Got(old(ClientState(id)));
                && sessions - {id} == old(sessions) - {id}
                && q4Sent == old(q4Sent) && reviewsOpen
                && if !AllMoviesIn(s) then
                     && ClientState(id) == Some(s) && q3Sent == old(q3Sent)
                     && storedReviewBatches == old(storedReviewBatches)[id := StoredOf(old(storedReviewBatches), id) + [body.value]]
                   else
                     && ClientState(id) == ReviewState(Some(s), body.value)
                     && q3Sent == old(q3Sent) + [ReviewSent(Some(s), body.value)]
                     && storedReviewBatches == old(storedReviewBatches)
    {
      if body.None? {
        return;
      }
      var batch := body.value;
      var clientId := batch.header.GetClientID();
      assert clientId == batch.header.clientId;
      ghost var s := Got(ClientState(clientId));
      ghost var before := sessions;
      var session := GetSession(clientId);
      OthersAfterUpdate(before, clientId, session);
      assert session.State() == s;
      session.QueriesMatchState();
      if !session.AllMoviesReceived() {
        StoreReviewBatch(clientId, batch);
        return;
      }
      ghost var got := sessions;
      JoinReviewBatch(clientId, batch);
      OthersAfterUpdate(got, clientId, sessions[clientId]);
      ghost var joined := sessions;
      CleanSession(clientId);
      OthersAfterRemove(joined, clientId);
    }

    /** The credits case of run: the session counts the batch, the credits of
        its movies are sent with the same header, and the session is cleaned. */
    method ReceiveCredits(body: Option<Batch<Credit>>)
      requires Valid() && reviewsOpen
      modifies this, if body.Some? then Touched(body.value.header.clientId) else {}
      ensures Valid()
      ensures body.None? ==>
                && sessions == old(sessions) && storedReviewBatches == old(storedReviewBatches)
                && q3Sent == old(q3Sent) && q4Sent == old(q4Sent)
      ensures body.Some? ==>
                var id := body.value.header.clientId;
                var s := NotifiedCredit(Got(old(ClientState(id))), body.value.header);
                && sessions - {id} == old(sessions) - {id}
                && ClientState(id) == Cleaned(s)
                && q4Sent == old(q4Sent) + [Batch(body.value.header, FilteredCredits(s.movies, body.value.data))]
                && q3Sent == old(q3Sent) && storedReviewBatches == old(storedReviewBatches) && reviewsOpen
    {
      if body.None? {
        return;
      }
      var batch := body.value;
      var clientId := batch.header.GetClientID();
      assert clientId == batch.header.clientId;
      ghost var before := sessions;
      var session := GetSession(clientId);
      OthersAfterUpdate(before, clientId, session);
      session.NotifyCredit(batch.header);
      var actors := session.FilterCredits(batch.data);
      q4Sent := q4Sent + [Batch(batch.header, actors)];
      ghost var notified := sessions;
      CleanSession(clientId);
      OthersAfterRemove(notified, clientId);
    }
  }
}
