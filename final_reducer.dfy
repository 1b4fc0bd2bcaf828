/** The final reducer's receiving loop (startReceiving and the per-query
    processing closures in server/final-reducer/final-reducer.go): it merges
    the reducers' partial results per client session, and once a session has
    received all its weight hands its data to the query's answer computation
    and drops the session. */
module FinalReducer {
  import opened Wrappers
  import opened Machine
  import opened Batches
  import opened Records
  import opened ClientSessions
  import opened Utils
  import opened FinalMerges

  // ----- Sessions -----

  /** A new session: nothing received, no EOF, the query's empty partial result. */
  function NewSession<D>(eofMultiplier: u32, initial: D): SessionState<D>
  {
    SessionState(0, 0, eofMultiplier, Some(initial))
  }

  /** A session after one batch: the batch's data merged in, its weight added,
      and, for an EOF batch, its total recorded. A session whose data is
      missing (the source's failed type assertion) counts the weight but
      merges nothing. */
  function Received<T, D>(s: SessionState<D>, batch: Batch<T>, merge: (D, seq<T>) -> D): SessionState<D>
  {
    SessionState(AddU32(s.currentWeight, batch.header.weight),
                 if batch.IsEof() then batch.header.totalWeight else s.eofWeight,
                 s.eofMultiplier,
                 if s.data.Some? then Some(merge(s.data.value, batch.data)) else None)
  }

  /** The processing closure and the weight bookkeeping of startReceiving,
      applied to one session. */
  method Absorb<T, D>(session: ClientSession<D>, batch: Batch<T>, merge: (D, seq<T>) -> D)
    modifies session
    ensures session.State() == Received(old(session.State()), batch, merge)
  {
    var current := session.GetData();
    if current.Some? {
      session.SetData(merge(current.value, batch.data));
    }
    session.AddCurrentWeight(batch.header.weight);
    if batch.IsEof() {
      session.SetEofWeight(batch.header.totalWeight);
    }
  }

  /** Whether a session, after a batch, is handed to finishAndSend. */
  predicate Completed<D>(s: SessionState<D>)
  {
    Finished(s.currentWeight, s.eofWeight, s.eofMultiplier) && s.data.Some?
  }

  /** The session after a sequence of batches. */
  function ReceivedAll<T, D>(s: SessionState<D>, batches: seq<Batch<T>>, merge: (D, seq<T>) -> D): SessionState<D>
  {
    if batches == [] then s else Received(ReceivedAll(s, batches[..|batches| - 1], merge), batches[|batches| - 1], merge)
  }

  /** The weights of a sequence of batches. */
  function Weights<T>(batches: seq<Batch<T>>): seq<int>
  {
    if batches == [] then [] else Weights(batches[..|batches| - 1]) + [batches[|batches| - 1].header.weight]
  }

  /** The data of a sequence of batches, concatenated. */
  function AllData<T>(batches: seq<Batch<T>>): seq<T>
  {
    if batches == [] then [] else AllData(batches[..|batches| - 1]) + batches[|batches| - 1].data
  }

  /** No session is completed before an EOF total has been recorded: the batch
      that completes a session is an EOF batch, or an EOF came before it. */
  lemma CompletedNeedsEof<T, D>(s: SessionState<D>, batch: Batch<T>, merge: (D, seq<T>) -> D)
    requires Completed(Received(s, batch, merge))
    ensures batch.IsEof() || s.eofWeight > 0
  {
    var s' := Received(s, batch, merge);
    FinishedMeaning(s'.currentWeight, s'.eofWeight, s'.eofMultiplier);
  }

  /** A session's weight is the sum of its batches' weights modulo 2^32. */
  lemma {:induction false} ReceivedAllWeight<T, D>(batches: seq<Batch<T>>, eofMultiplier: u32, initial: D, merge: (D, seq<T>) -> D)
    ensures ReceivedAll(NewSession(eofMultiplier, initial), batches, merge).currentWeight == Total(Weights(batches)) % U32_LIMIT
  {
    if batches != [] {
      var init, last := batches[..|batches| - 1], batches[|batches| - 1];
      ReceivedAllWeight(init, eofMultiplier, initial, merge);
      TotalAppend(Weights(init), [last.header.weight]);
      assert Total([last.header.weight]) == last.header.weight;
      WrapStep32(Total(Weights(init)), ReceivedAll(NewSession(eofMultiplier, initial), init, merge).currentWeight, last.header.weight);
    }
  }

  /** A session keeps its multiplier, and its EOF total is that of its last EOF
      batch, or 0 while there has been none. */
  lemma {:induction false} ReceivedAllEof<T, D>(batches: seq<Batch<T>>, eofMultiplier: u32, initial: D, merge: (D, seq<T>) -> D)
    ensures ReceivedAll(NewSession(eofMultiplier, initial), batches, merge).eofMultiplier == eofMultiplier
    ensures ReceivedAll(NewSession(eofMultiplier, initial), batches, merge).eofWeight ==
              if exists k :: 0 <= k < |batches| && batches[k].IsEof()
              then batches[LastEof(batches)].header.totalWeight else 0
  {
    if batches != [] {
      var init, last := batches[..|batches| - 1], batches[|batches| - 1];
      ReceivedAllEof(init, eofMultiplier, initial, merge);
      if exists k :: 0 <= k < |init| && init[k].IsEof() {
        var k :| 0 <= k < |init| && init[k].IsEof();
        assert batches[k] == init[k];
      }
      if !last.IsEof() && exists k :: 0 <= k < |batches| && batches[k].IsEof() {
        var k :| 0 <= k < |batches| && batches[k].IsEof();
        assert k < |init| && init[k] == batches[k];
      }
    }
  }

  /** Once the last EOF batch has announced a positive total E, a session whose
      weights and E times its multiplier stay below 2^32 is finished exactly
      when the weights received add up to E times the multiplier. */
  lemma FinishedWhenAllWeightArrived<T, D>(batches: seq<Batch<T>>, eofMultiplier: u32, initial: D, merge: (D, seq<T>) -> D)
    requires exists k :: 0 <= k < |batches| && batches[k].IsEof()
    requires Total(Weights(batches)) < U32_LIMIT
    requires batches[LastEof(batches)].header.totalWeight * eofMultiplier < U32_LIMIT
    ensures var s := ReceivedAll(NewSession(eofMultiplier, initial), batches, merge);
            Finished(s.currentWeight, s.eofWeight, s.eofMultiplier)
            <==> Total(Weights(batches)) == batches[LastEof(batches)].header.totalWeight * eofMultiplier
  {
    var s := ReceivedAll(NewSession(eofMultiplier, initial), batches, merge);
    var e := batches[LastEof(batches)].header.totalWeight;
    var w := Total(Weights(batches));
    ReceivedAllWeight(batches, eofMultiplier, initial, merge);
    ReceivedAllEof(batches, eofMultiplier, initial, merge);
    WeightsNonNegative(batches);
    SmallMod32(w);
    assert s.currentWeight == w && s.eofWeight == e && e > 0 && s.eofMultiplier == eofMultiplier;
    FinishedMeaning(w, e, eofMultiplier);
  }

  lemma WeightsNonNegative<T>(batches: seq<Batch<T>>)
    ensures Total(Weights(batches)) >= 0
  {
    assert forall j :: 0 <= j < |Weights(batches)| ==> Weights(batches)[j] >= 0 by {
      WeightsAreU32(batches);
    }
    TotalNonNegative(Weights(batches));
  }

  lemma {:induction false} WeightsAreU32<T>(batches: seq<Batch<T>>)
    ensures |Weights(batches)| == |batches|
    ensures forall j :: 0 <= j < |batches| ==> Weights(batches)[j] == batches[j].header.weight
  {
    if batches != [] {
      WeightsAreU32(batches[..|batches| - 1]);
    }
  }

  /** The index of the last EOF batch. */
  function LastEof<T>(batches: seq<Batch<T>>): (k: nat)
    requires exists k :: 0 <= k < |batches| && batches[k].IsEof()
    ensures k < |batches| && batches[k].IsEof()
    ensures forall j :: k < j < |batches| ==> !batches[j].IsEof()
  {
    var last := batches[|batches| - 1];
    if last.IsEof() then |batches| - 1
    else
      var init := batches[..|batches| - 1];
      assert exists k :: 0 <= k < |init| && init[k].IsEof() by {
        var k :| 0 <= k < |batches| && batches[k].IsEof();
        assert k < |init| && init[k] == batches[k];
      }
      var k := LastEof(init);
      assert batches[k] == init[k];
      assert forall j :: k < j < |init| ==> batches[j] == init[j];
      k
  }

  /** With the Q2 merge starting from an empty map, a session holds the merge
      of everything it has received, however it was batched. */
  lemma {:induction false} ReceivedAllCountries(batches: seq<Batch<CountryBudget>>, eofMultiplier: u32)
    ensures ReceivedAll(NewSession(eofMultiplier, map[]), batches, MergedCountries).data
            == Some(MergedCountries(map[], AllData(batches)))
  {
    if batches != [] {
      var init := batches[..|batches| - 1];
      ReceivedAllCountries(init, eofMultiplier);
      MergedCountriesAppend(map[], AllData(init), batches[|batches| - 1].data);
    }
  }

  /** The same for the Q4 merge. */
  lemma {:induction false} ReceivedAllActors(batches: seq<Batch<ActorMoviesAmount>>, eofMultiplier: u32)
    ensures ReceivedAll(NewSession(eofMultiplier, map[]), batches, MergedActors).data
            == Some(MergedActors(map[], AllData(batches)))
  {
    if batches != [] {
      var init := batches[..|batches| - 1];
      ReceivedAllActors(init, eofMultiplier);
      MergedActorsAppend(map[], AllData(init), batches[|batches| - 1].data);
    }
  }

  /** The multiplier a query's sessions are created with: the number of joiner
      shards, converted to uint32, for queries 3 and 4, whose partial results
      come through the joiners; 1 for the others. */
  function QueryMultiplier(queryNum: int, joinerShards: int): u32
  {
    if queryNum == 3 || queryNum == 4 then joinerShards % U32_LIMIT else 1
  }

  /** A factor of a product with a positive cofactor is at most the product. */
  lemma FactorAtMostProduct(a: int, b: int)
    requires a >= 1 && b >= 0
    ensures b <= a * b
  {
  }

  /** A query 2 or 5 session finishes when its weight reaches the EOF total; a
      query 3 or 4 session when it reaches the total times the number of
      joiner shards, while that product fits in 32 bits. */
  lemma QueryMultiplierMeaning(queryNum: int, joinerShards: int, currentWeight: u32, eofWeight: i32)
    ensures queryNum == 2 || queryNum == 5 ==>
              (Finished(currentWeight, eofWeight, QueryMultiplier(queryNum, joinerShards))
               <==> eofWeight > 0 && currentWeight == eofWeight)
    ensures (queryNum == 3 || queryNum == 4) && 0 <= joinerShards && eofWeight * joinerShards < U32_LIMIT ==>
              (Finished(currentWeight, eofWeight, QueryMultiplier(queryNum, joinerShards))
               <==> eofWeight > 0 && currentWeight == eofWeight * joinerShards)
  {
    if queryNum == 3 || queryNum == 4 {
      if 0 <= joinerShards && eofWeight * joinerShards < U32_LIMIT {
        if eofWeight > 0 {
          FactorAtMostProduct(eofWeight as int, joinerShards);
          assert QueryMultiplier(queryNum, joinerShards) == joinerShards;
        }
        FinishedMeaning(currentWeight, eofWeight, QueryMultiplier(queryNum, joinerShards));
      }
    } else {
      FinishedSmallMultipliers(currentWeight, eofWeight);
    }
  }

  /** The final reducer of one query: the multiplier its sessions use (1 for
      queries 2 and 5, the number of joiner shards for 3 and 4), the query's
      empty partial result and merge, the open sessions, and the answers
      handed to finishAndSend so far, with their client IDs. */
  class Service<T, D> {
    const eofMultiplier: u32
    const initial: D
    const merge: (D, seq<T>) -> D
    var sessions: map<string, ClientSession<D>>
    var answers: seq<(string, D)>

    /** Distinct clients have distinct session objects. */
    ghost predicate Valid()
      reads this
    {
      forall a, b :: a in sessions && b in sessions && a != b ==> sessions[a] != sessions[b]
    }

    constructor(eofMultiplier: u32, initial: D, merge: (D, seq<T>) -> D)
      ensures this.eofMultiplier == eofMultiplier && this.initial == initial && this.merge == merge
      ensures sessions == map[] && answers == []
      ensures Valid()
    {
      this.eofMultiplier := eofMultiplier;
      this.initial := initial;
      this.merge := merge;
      sessions := map[];
      answers := [];
    }

    /** The existing session of the client that sent `body`, if any: the only
        session a message may change. */
    function Touched(body: Option<Batch<T>>): set<object>
      reads this
    {
      if body.Some? && body.value.header.clientId in sessions then {sessions[body.value.header.clientId]} else {}
    }

    /** The get-or-create at the head of every processing closure. */
    method SessionFor(clientID: string) returns (session: ClientSession<D>)
      requires Valid()
      modifies this
      ensures Valid() && clientID in sessions && session == sessions[clientID]
      ensures answers == old(answers)
      ensures clientID in old(sessions) ==> sessions == old(sessions)
      ensures clientID !in old(sessions) ==>
                && fresh(session) && sessions == old(sessions)[clientID := session]
                && session.State() == NewSession(eofMultiplier, initial)
    {
      if clientID !in sessions {
        var created := new ClientSession(clientID, eofMultiplier);
        created.SetData(initial);
        sessions := sessions[clientID := created];
      }
      session := sessions[clientID];
    }

    /** One iteration of startReceiving's loop. A message that does not decode
        (None) is skipped. Otherwise the sender's session, created if missing,
        receives the batch; if it is then complete its data is handed over as
        the client's answer and the session is dropped. */
    method ReceiveMessage(body: Option<Batch<T>>)
      requires Valid()
      modifies this, Touched(body)
      ensures Valid()
      ensures body.None? ==> sessions == old(sessions) && answers == old(answers)
      ensures body.Some? ==>
                var id := body.value.header.clientId;
                var s := if id in old(sessions) then old(sessions[id].State()) else NewSession(eofMultiplier, initial);
                var s' := Received(s, body.value, merge);
                if Completed(s') then
                  sessions == old(sessions) - {id} && answers == old(answers) + [(id, s'.data.value)]
                else
                  && id in sessions && sessions == old(sessions)[id := sessions[id]]
                  && sessions[id].State() == s' && answers == old(answers)
    {
      if body.None? {
        return;
      }
      var batch := body.value;
      var clientID := batch.header.clientId;
      var session := SessionFor(clientID);
      Absorb(session, batch, merge);
      if session.IsFinished() && session.data.Some? {
        var data := session.GetData();
        answers := answers + [(clientID, data.value)];
        sessions := sessions - {clientID};
      }
    }
  }
}
