/** The client/gateway protocol on top of the framing
    (pkg/communication/protocol.go): how data and EOF batches are headed,
    how a query's results and its end are sent, and how a received results
    message is dispatched on its query number. JSON encoding and decoding
    are parameters. */
module Protocol {
  import opened Wrappers
  import opened Machine
  import opened Batches
  import opened Communication

  // ----- Batches the client sends -----

  /** SendData's batch: the weight is the number of items and the total is
      the "unknown" marker. */
  function DataBatch<T>(data: seq<T>): RawBatch<T>
  {
    RawBatch(RawHeader(U32OfNat(|data|), UNKNOWN_TOTAL), data)
  }

  /** SendBatchEOF's batch: no items, weight 0, and the announced total. */
  function EofBatch<T>(total: i32): RawBatch<T>
  {
    RawBatch(RawHeader(0, total), [])
  }

  /** A data batch carries its items, weighs as many (below 2^32 of them) and
      never ends the stream. */
  lemma DataBatchNeverEof<T>(data: seq<T>)
    ensures !DataBatch(data).IsEof()
    ensures DataBatch(data).data == data
    ensures |data| < U32_LIMIT ==> DataBatch(data).header.weight == |data|
  {
  }

  /** An EOF batch is empty, weighs nothing, and ends the stream exactly when
      the announced total is positive. */
  lemma EofBatchShape<T>(total: i32)
    ensures EofBatch<T>(total).data == [] && EofBatch<T>(total).header.weight == 0
    ensures EofBatch<T>(total).IsEof() <==> total > 0
  {
  }

  /** SendData: send the encoded data batch with sendFixedSize. */
  method SendData<T>(conn: Conn, data: seq<T>, encode: RawBatch<T> -> seq<byte>) returns (ok: bool)
    modifies conn
    ensures var o := RewriteSend(Frame(encode(DataBatch(data))), old(conn.writeSteps), 0);
      ok == o.ok && conn.sent == old(conn.sent) + o.out
    ensures KeepsWriterContract(old(conn.writeSteps), |Frame(encode(DataBatch(data)))|) ==>
      (ok ==> conn.sent == old(conn.sent) + Frame(encode(DataBatch(data))))
  {
    var batch := RawBatch(RawHeader(U32OfNat(|data|), UNKNOWN_TOTAL), data);
    ok := SendFixedSize(conn, encode(batch));
  }

  /** SendBatchEOF: send the encoded EOF batch with sendFixedSize. */
  method SendBatchEOF<T>(conn: Conn, total: i32, encode: RawBatch<T> -> seq<byte>) returns (ok: bool)
    modifies conn
    ensures var o := RewriteSend(Frame(encode(EofBatch(total))), old(conn.writeSteps), 0);
      ok == o.ok && conn.sent == old(conn.sent) + o.out
    ensures KeepsWriterContract(old(conn.writeSteps), |Frame(encode(EofBatch(total)))|) ==>
      (ok ==> conn.sent == old(conn.sent) + Frame(encode(EofBatch(total))))
  {
    var batch: RawBatch<T> := RawBatch(RawHeader(0, total), []);
    ok := SendFixedSize(conn, encode(batch));
  }

  // ----- Query results -----

  /** The JSON text `null`. */
  const NULL_JSON: seq<byte> := [110, 117, 108, 108]

  /** models.Results as a Go value: the query number and the encoded items,
      a json.RawMessage that is nil (None) in a query's end marker. */
  datatype Results = Results(queryId: int, items: Option<seq<byte>>)

  /** SendQueryEof's message: the query number and nil items. */
  function QueryEof(queryId: int): Results
  {
    Results(queryId, None)
  }

  /** SendQueryResults' message: the query number and the encoded items. */
  function QueryResults<T>(queryId: int, payload: seq<T>, encode: seq<T> -> seq<byte>): Results
  {
    Results(queryId, Some(encode(payload)))
  }

  /** The message the receiver holds after sendResults' json.Marshal and
      recvResults' json.Unmarshal. The items field has no `omitempty`
      (pkg/models/Batch.go:21), so nil items are written as `null`, and
      RawMessage keeps the text of whatever value it is given, `null`
      included: the receiver never holds nil items. */
  function Delivered(sent: Results): Results
  {
    match sent.items
    case None => Results(sent.queryId, Some(NULL_JSON))
    case Some(text) => Results(sent.queryId, Some(text))
  }

  /** models.TotalQueryResults as the client receives it; `items` is None
      for a nil slice. */
  datatype Received<T> = Received(queryId: int, items: Option<seq<T>>)

  datatype ProtocolError = UnknownQueryId(id: int) | UnmarshalFailed

  /** json.Unmarshal of the items into a slice of query q's record type:
      `null` leaves the slice nil and reports no error; any other text goes
      to the decoder of that record type, `decode(q, _)`. */
  function UnmarshalItems<T>(queryId: int, text: seq<byte>, decode: (int, seq<byte>) -> Option<seq<T>>): Option<seq<T>>
  {
    if text == NULL_JSON then Some([]) else decode(queryId, text)
  }

  /** unmarshalSlice: decode the items, then copy them one by one into a
      result slice made with the decoded length. */
  method UnmarshalSlice<T(0)>(data: seq<byte>, decode: seq<byte> -> Option<seq<T>>) returns (r: Option<seq<T>>)
    ensures r.None? <==> decode(data).None?
    ensures r.Some? ==>
              && |r.value| == |decode(data).value|
              && forall k :: 0 <= k < |r.value| ==> r.value[k] == decode(data).value[k]
  {
    var items := decode(data);
    if items.None? {
      return None;
    }
    var res := new T[|items.value|];
    var i := 0;
    while i < |items.value|
      invariant 0 <= i <= |items.value|
      invariant forall k :: 0 <= k < i ==> res[k] == items.value[k]
    {
      res[i] := items.value[i];
      i := i + 1;
    }
    r := Some(res[..]);
  }

  /** RecvQueryResults after the message is read: nil items give nil items
      back; otherwise a query number outside 1..5 is an error, and the items
      are unmarshalled into a non-nil slice of the query's record type. */
  function RecvQueryResults<T>(msg: Results, decode: (int, seq<byte>) -> Option<seq<T>>): (r: Result<Received<T>, ProtocolError>)
    ensures msg.items.None? ==> r == Ok(Received(msg.queryId, None))
    ensures msg.items.Some? && !(1 <= msg.queryId <= 5) ==> r == Err(UnknownQueryId(msg.queryId))
    ensures msg.items.Some? && 1 <= msg.queryId <= 5 ==>
              (r.Ok? <==> UnmarshalItems(msg.queryId, msg.items.value, decode).Some?)
    ensures r.Ok? ==> r.value.queryId == msg.queryId
    ensures r.Ok? ==> (r.value.items.None? <==> msg.items.None?)
  {
    if msg.items.None? then Ok(Received(msg.queryId, None))
    else if !(1 <= msg.queryId <= 5) then Err(UnknownQueryId(msg.queryId))
    else match UnmarshalItems(msg.queryId, msg.items.value, decode)
      case None => Err(UnmarshalFailed)
      case Some(items) => Ok(Received(msg.queryId, Some(items)))
  }

  /** IsQueryEof: the length of the items is zero, which holds for nil items
      and for an empty list alike. */
  predicate IsQueryEof<T>(results: Received<T>)
  {
    match results.items
    case None => true
    case Some(items) => |items| == 0
  }

  /** The end marker of a query 1..5 arrives as an empty list, not as nil
      items, and IsQueryEof takes it for the end of the query; for any other
      query number the receiver reports an unknown query. */
  lemma QueryEofRoundTrip<T>(queryId: int, decode: (int, seq<byte>) -> Option<seq<T>>)
    ensures 1 <= queryId <= 5 ==>
              && RecvQueryResults(Delivered(QueryEof(queryId)), decode) == Ok(Received(queryId, Some([])))
              && IsQueryEof(RecvQueryResults(Delivered(QueryEof(queryId)), decode).value)
    ensures !(1 <= queryId <= 5) ==>
              RecvQueryResults(Delivered(QueryEof(queryId)), decode) == Err(UnknownQueryId(queryId))
  {
  }

  /** Results of queries 1 to 5 arrive as sent whenever unmarshalling inverts
      the encoding, and IsQueryEof takes them for the end of the query exactly
      when the list is empty. */
  lemma QueryResultsRoundTrip<T>(queryId: int, items: seq<T>, encode: seq<T> -> seq<byte>,
                                 decode: (int, seq<byte>) -> Option<seq<T>>)
    requires 1 <= queryId <= 5 && UnmarshalItems(queryId, encode(items), decode) == Some(items)
    ensures RecvQueryResults(Delivered(QueryResults(queryId, items, encode)), decode)
            == Ok(Received(queryId, Some(items)))
    ensures IsQueryEof(RecvQueryResults(Delivered(QueryResults(queryId, items, encode)), decode).value)
            <==> items == []
  {
  }

  /** The receiver cannot tell an empty results list from the end marker:
      both arrive as the same value. The gateway never sends such a list for
      queries 1 and 2: it skips empty query 1 batches that are not EOF and
      always builds five query 2 entries. */
  lemma EmptyResultsEndQuery<T>(queryId: int, encode: seq<T> -> seq<byte>,
                                decode: (int, seq<byte>) -> Option<seq<T>>)
    requires UnmarshalItems(queryId, encode([]), decode) == Some([])
    ensures RecvQueryResults(Delivered(QueryResults(queryId, [], encode)), decode)
            == RecvQueryResults(Delivered(QueryEof(queryId)), decode)
  {
  }
}
