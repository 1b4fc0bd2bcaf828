/** A final reducer's per-client session (server/final-reducer/client_session.go):
    the weight received so far, the total announced by the EOF batch, the
    factor by which that total is multiplied (one EOF per joiner shard), and
    the partial result. */
module ClientSessions {
  import opened Wrappers
  import opened Machine

  /** The values of a session's fields. */
  datatype SessionState<D> = SessionState(currentWeight: u32, eofWeight: i32, eofMultiplier: u32, data: Option<D>)

  /** The completion rule, with Go's uint32 conversion and multiplication. */
  predicate Finished(currentWeight: u32, eofWeight: i32, eofMultiplier: u32)
  {
    eofWeight > 0 && currentWeight == MulU32(U32OfI32(eofWeight), eofMultiplier)
  }

  /** A session is finished only after a positive EOF total is recorded, and
      then exactly when the weight received equals that total times the
      multiplier, as long as that product fits in 32 bits. */
  lemma FinishedMeaning(currentWeight: u32, eofWeight: i32, eofMultiplier: u32)
    ensures eofWeight <= 0 ==> !Finished(currentWeight, eofWeight, eofMultiplier)
    ensures eofWeight > 0 && eofWeight * eofMultiplier < U32_LIMIT ==>
              (Finished(currentWeight, eofWeight, eofMultiplier) <==> currentWeight == eofWeight * eofMultiplier)
  {
  }

  /** With a multiplier of 0 a session finishes as soon as an EOF arrives and
      nothing has been counted modulo 2^32; with multiplier 1 its weight must
      match the EOF total. */
  lemma FinishedSmallMultipliers(currentWeight: u32, eofWeight: i32)
    ensures Finished(currentWeight, eofWeight, 1) <==> eofWeight > 0 && currentWeight == eofWeight
    ensures Finished(currentWeight, eofWeight, 0) <==> eofWeight > 0 && currentWeight == 0
  {
  }

  class ClientSession<D> {
    var currentWeight: u32
    var eofWeight: i32
    var eofMultiplier: u32
    const sessionId: string
    var data: Option<D>

    function State(): SessionState<D>
      reads this
    {
      SessionState(currentWeight, eofWeight, eofMultiplier, data)
    }

    /** NewClientSession: nothing received, no EOF, no data yet. */
    constructor(sessionId: string, eofMultiplier: u32)
      ensures this.sessionId == sessionId
      ensures State() == SessionState(0, 0, eofMultiplier, None)
      ensures !IsFinished()
    {
      this.sessionId := sessionId;
      this.eofMultiplier := eofMultiplier;
      currentWeight := 0;
      eofWeight := 0;
      data := None;
    }

    method SetData(d: D)
      modifies this
      ensures State() == old(State()).(data := Some(d))
    {
      data := Some(d);
    }

    method GetData() returns (d: Option<D>)
      ensures d == data
    {
      return data;
    }

    /** Adds to the received weight, wrapping around at 2^32. */
    method AddCurrentWeight(weight: u32)
      modifies this
      ensures State() == old(State()).(currentWeight := AddU32(old(currentWeight), weight))
    {
      currentWeight := AddU32(currentWeight, weight);
    }

    method SetEofWeight(weight: i32)
      modifies this
      ensures State() == old(State()).(eofWeight := weight)
    {
      eofWeight := weight;
    }

    method GetEofWeight() returns (w: i32)
      ensures w == eofWeight
    {
      return eofWeight;
    }

    predicate IsFinished()
      reads this
    {
      Finished(currentWeight, eofWeight, eofMultiplier)
    }
  }
}
