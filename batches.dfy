/** Batch headers and the end-of-stream rule shared by every stage
    (server/common/batch.go, and the client-facing pkg/models/Batch.go whose
    header has no client id). */
module Batches {
  import opened Machine

  /** TotalWeight of a data batch whose total is not known yet. */
  const UNKNOWN_TOTAL: i32 := -1
  /** TotalWeight the gateway puts on the batch that tells stages to drop a client. */
  const CLEANUP_TOTAL: i32 := -2

  datatype Header = Header(weight: u32, totalWeight: i32, clientId: string)
  {
    /** A batch closes its stream exactly when it announces a positive total. */
    predicate IsEof()
    {
      totalWeight > 0
    }

    function GetClientID(): (id: string)
      ensures |id| == |clientId| && forall k :: 0 <= k < |id| ==> id[k] == clientId[k]
    {
      clientId
    }
  }

  datatype Batch<T> = Batch(header: Header, data: seq<T>)
  {
    predicate IsEof()
    {
      header.IsEof()
    }
  }

  /** The header of pkg/models, which carries no client id. */
  datatype RawHeader = RawHeader(weight: u32, totalWeight: i32)

  datatype RawBatch<T> = RawBatch(header: RawHeader, data: seq<T>)
  {
    predicate IsEof()
    {
      header.totalWeight > 0
    }
  }

  /** Whether a batch is EOF depends on TotalWeight alone: changing the
      weight, the client id or the data never changes the answer, and the two
      header types agree. */
  lemma EofOnlyByTotal<T>(b: Batch<T>, weight: u32, clientId: string, data: seq<T>)
    ensures b.IsEof() <==> b.header.totalWeight > 0
    ensures Batch(Header(weight, b.header.totalWeight, clientId), data).IsEof() == b.IsEof()
    ensures RawBatch(RawHeader(weight, b.header.totalWeight), data).IsEof() == b.IsEof()
  {
  }

  /** Neither the "total unknown" marker nor the cleanup marker ends a stream. */
  lemma MarkersAreNotEof(weight: u32, clientId: string)
    ensures !Header(weight, UNKNOWN_TOTAL, clientId).IsEof()
    ensures !Header(weight, CLEANUP_TOTAL, clientId).IsEof()
    ensures !RawBatch(RawHeader(weight, UNKNOWN_TOTAL), [0]).IsEof()
  {
  }
}
