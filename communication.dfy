/** Length-prefixed framing over a TCP connection
    (pkg/communication/communication.go). A frame is the payload's length as
    a 4-byte big-endian unsigned integer, followed by the payload. The
    connection is a class whose Read and Write calls follow a schedule given
    up front, standing for the network. */
module Communication {
  import opened Wrappers
  import opened Machine
  import Utils

  /** Bytes in the length prefix. */
  const SIZE: nat := 4

  // ----- Big-endian length prefix -----

  lemma Digit256(a: nat, r: nat)
    requires r < 256
    ensures (a * 256 + r) / 256 == a && (a * 256 + r) % 256 == r
  {
  }

  /** binary.BigEndian.PutUint32: most significant byte first. */
  function BigEndian32(n: u32): (b: seq<byte>)
    ensures |b| == SIZE
  {
    var n1 := n / 256;
    var n2 := n1 / 256;
    [n2 / 256, n2 % 256, n1 % 256, n % 256]
  }

  /** binary.BigEndian.Uint32. */
  function Uint32(b: seq<byte>): u32
    requires |b| == SIZE
  {
    var b0: int, b1: int, b2: int, b3: int := b[0], b[1], b[2], b[3];
    ((b0 * 256 + b1) * 256 + b2) * 256 + b3
  }

  /** Reading back a written prefix gives the number. */
  lemma Uint32OfBigEndian32(n: u32)
    ensures Uint32(BigEndian32(n)) == n
  {
    var n1 := n / 256;
    var n2 := n1 / 256;
    assert n == n1 * 256 + n % 256;
    assert n1 == n2 * 256 + n1 % 256;
    assert n2 == (n2 / 256) * 256 + n2 % 256;
  }

  /** Writing a read prefix gives back the same four bytes. */
  lemma BigEndian32OfUint32(b: seq<byte>)
    requires |b| == SIZE
    ensures BigEndian32(Uint32(b)) == b
  {
    var b0: int, b1: int, b2: int, b3: int := b[0], b[1], b[2], b[3];
    var n2 := b0 * 256 + b1;
    var n1 := n2 * 256 + b2;
    Digit256(n1, b[3]);
    Digit256(n2, b[2]);
    Digit256(b[0], b[1]);
    assert b[0] / 256 == 0 && b[0] % 256 == b[0];
  }

  // ----- Frames -----

  /** sendFixedSize's message: the length, truncated to 32 bits as uint32()
      does, and the payload. */
  function Frame(data: seq<byte>): seq<byte>
  {
    BigEndian32(U32OfNat(|data|)) + data
  }

  datatype Unframed = Unframed(payload: seq<byte>, rest: seq<byte>)

  /** What the recv* functions read from a byte stream: the 4-byte length,
      then that many bytes; None when the stream ends first. */
  function Unframe(stream: seq<byte>): Option<Unframed>
  {
    if |stream| < SIZE then None
    else
      var size := Uint32(stream[..SIZE]);
      if |stream| - SIZE < size then None
      else Some(Unframed(stream[SIZE..SIZE + size], stream[SIZE + size..]))
  }

  /** Decoding a stream that starts with a frame yields the payload and
      consumes exactly 4 + len bytes. */
  lemma UnframeFrame(data: seq<byte>, rest: seq<byte>)
    requires |data| < U32_LIMIT
    ensures Unframe(Frame(data) + rest) == Some(Unframed(data, rest))
  {
    var s := Frame(data) + rest;
    Uint32OfBigEndian32(|data|);
    assert s[..SIZE] == BigEndian32(|data|);
    assert s[SIZE..SIZE + |data|] == data;
    assert s[SIZE + |data|..] == rest;
  }

  /** Conversely, whatever a stream decodes to, the stream is that payload's
      frame followed by the rest. */
  lemma FrameUnframe(stream: seq<byte>)
    requires Unframe(stream).Some?
    ensures stream == Frame(Unframe(stream).value.payload) + Unframe(stream).value.rest
  {
    var u := Unframe(stream).value;
    var size := Uint32(stream[..SIZE]);
    assert |u.payload| == size;
    BigEndian32OfUint32(stream[..SIZE]);
    assert stream == stream[..SIZE] + u.payload + u.rest;
  }

  // ----- The connection -----

  /** What one Read or Write call of the connection does: move up to `n`
      bytes, or fail. */
  datatype IoStep = Move(n: nat) | Fail

  function Min(a: nat, b: nat): nat
  {
    if a < b then a else b
  }

  /** Whether calls behaving as `steps` move `want` bytes, when `avail` bytes
      can be moved at most, before one of them fails or moves nothing. */
  predicate Fills(avail: nat, steps: seq<IoStep>, want: nat)
    decreases |steps|
  {
    if want == 0 then true
    else if steps == [] || steps[0].Fail? then false
    else
      var k := Min(Min(steps[0].n, want), avail);
      k > 0 && Fills(avail - k, steps[1..], want - k)
  }

  /** Bytes can only arrive if they were sent: filling needs `want` available. */
  lemma {:induction false} FillsNeedsBytes(avail: nat, steps: seq<IoStep>, want: nat)
    requires Fills(avail, steps, want)
    ensures want <= avail
    decreases |steps|
  {
    if want > 0 {
      var k := Min(Min(steps[0].n, want), avail);
      FillsNeedsBytes(avail - k, steps[1..], want - k);
    }
  }

  /** With enough bytes available and enough calls that each move at least
      one byte, the loop fills. */
  lemma {:induction false} FillsWhenProgress(avail: nat, steps: seq<IoStep>, want: nat)
    requires want <= avail && want <= |steps|
    requires forall k :: 0 <= k < |steps| ==> steps[k].Move? && steps[k].n > 0
    ensures Fills(avail, steps, want)
    decreases |steps|
  {
    if want > 0 {
      var k := Min(Min(steps[0].n, want), avail);
      assert forall j :: 0 <= j < |steps| - 1 ==> steps[1..][j] == steps[j + 1];
      FillsWhenProgress(avail - k, steps[1..], want - k);
    }
  }

  class Conn {
    /** Bytes the peer has sent and this side has not read yet. */
    var incoming: seq<byte>
    /** How the coming Read calls behave, in order. */
    var readSteps: seq<IoStep>
    /** Bytes this side has written. */
    var sent: seq<byte>
    /** How the coming Write calls behave, in order. */
    var writeSteps: seq<IoStep>

    constructor (incoming: seq<byte>, readSteps: seq<IoStep>, writeSteps: seq<IoStep>)
      ensures this.incoming == incoming && this.readSteps == readSteps
      ensures this.sent == [] && this.writeSteps == writeSteps
    {
      this.incoming := incoming;
      this.readSteps := readSteps;
      this.sent := [];
      this.writeSteps := writeSteps;
    }

    /** conn.Read into a buffer of `max` bytes. */
    method Read(max: nat) returns (chunk: seq<byte>, ok: bool)
      modifies this
      ensures ok <==> old(readSteps) != [] && old(readSteps)[0].Move?
      ensures readSteps == if old(readSteps) == [] then [] else old(readSteps)[1..]
      ensures ok ==> chunk == old(incoming)[..Min(Min(old(readSteps)[0].n, max), |old(incoming)|)]
      ensures !ok ==> chunk == []
      ensures incoming == old(incoming)[|chunk|..]
      ensures sent == old(sent) && writeSteps == old(writeSteps)
    {
      if readSteps == [] || readSteps[0].Fail? {
        chunk, ok := [], false;
        readSteps := if readSteps == [] then [] else readSteps[1..];
      } else {
        var k := Min(Min(readSteps[0].n, max), |incoming|);
        chunk, ok := incoming[..k], true;
        incoming := incoming[k..];
        readSteps := readSteps[1..];
      }
    }

    /** conn.Write of `p`: writes a prefix of it. */
    method Write(p: seq<byte>) returns (n: nat, ok: bool)
      modifies this
      ensures ok <==> old(writeSteps) != [] && old(writeSteps)[0].Move?
      ensures writeSteps == if old(writeSteps) == [] then [] else old(writeSteps)[1..]
      ensures ok ==> n == Min(old(writeSteps)[0].n, |p|)
      ensures !ok ==> n == 0
      ensures sent == old(sent) + p[..n]
      ensures incoming == old(incoming) && readSteps == old(readSteps)
    {
      if writeSteps == [] || writeSteps[0].Fail? {
        n, ok := 0, false;
        writeSteps := if writeSteps == [] then [] else writeSteps[1..];
      } else {
        n, ok := Min(writeSteps[0].n, |p|), true;
        sent := sent + p[..n];
        writeSteps := writeSteps[1..];
      }
    }
  }

  datatype CommError = ReadError | WriteError | DecodeError

  /** RecvAll: fill a buffer of `size` bytes across as many reads as it
      takes, failing as soon as a read fails or returns nothing. */
  method RecvAll(conn: Conn, size: nat) returns (r: Result<seq<byte>, CommError>)
    modifies conn
    ensures r.Ok? <==> Fills(|old(conn.incoming)|, old(conn.readSteps), size)
    ensures r.Ok? ==> size <= |old(conn.incoming)| && r.value == old(conn.incoming)[..size]
    ensures r.Ok? ==> conn.incoming == old(conn.incoming)[size..]
    ensures |conn.incoming| <= |old(conn.incoming)|
    ensures conn.incoming == old(conn.incoming)[|old(conn.incoming)| - |conn.incoming|..]
    ensures conn.sent == old(conn.sent) && conn.writeSteps == old(conn.writeSteps)
  {
    ghost var whole := conn.incoming;
    ghost var plan := conn.readSteps;
    var buf: seq<byte> := [];
    var total := 0;
    while total < size
      invariant 0 <= total <= size && total <= |whole|
      invariant conn.incoming == whole[total..]
      invariant buf == whole[..total]
      invariant Fills(|whole|, plan, size) == Fills(|conn.incoming|, conn.readSteps, size - total)
      invariant conn.sent == old(conn.sent) && conn.writeSteps == old(conn.writeSteps)
      decreases size - total
    {
      ghost var avail, steps := |conn.incoming|, conn.readSteps;
      var chunk, ok := conn.Read(size - total);
      if !ok || |chunk| == 0 {
        return Err(ReadError);
      }
      FillsUnfold(avail, steps, size - total, |conn.incoming|, conn.readSteps, size - (total + |chunk|));
      SliceStep(whole, total, |chunk|);
      buf := buf + chunk;
      total := total + |chunk|;
    }
    r := Ok(buf);
  }

  /** One call's worth of Fills: a call that moves k > 0 bytes leaves the
      rest to the remaining calls. */
  lemma FillsUnfold(avail: nat, steps: seq<IoStep>, want: nat, avail': nat, steps': seq<IoStep>, want': nat)
    requires want > 0 && steps != [] && steps[0].Move? && steps' == steps[1..]
    requires var k := Min(Min(steps[0].n, want), avail); k > 0 && avail' == avail - k && want' == want - k
    ensures Fills(avail, steps, want) == Fills(avail', steps', want')
  {
  }

  /** Taking `k` more elements after the first `total`. */
  lemma SliceStep<T>(s: seq<T>, total: nat, k: nat)
    requires total + k <= |s|
    ensures s[..total + k] == s[..total] + s[total..][..k]
    ensures s[total..][k..] == s[total + k..]
  {
  }

  // ----- Sending -----

  datatype WriteOutcome = WriteOutcome(out: seq<byte>, ok: bool, used: nat)

  /** What SendAll as written puts on the wire: every call writes `message`
      from its start again, until the counts written add up to its length. */
  function RewriteSend(message: seq<byte>, writes: seq<IoStep>, written: nat): (o: WriteOutcome)
    ensures o.used <= |writes|
    decreases |writes|
  {
    if written >= |message| then WriteOutcome([], true, 0)
    else if writes == [] then WriteOutcome([], false, 0)
    else if writes[0].Fail? then WriteOutcome([], false, 1)
    else
      var k := Min(writes[0].n, |message|);
      if k == 0 then WriteOutcome([], false, 1)
      else
        var rest := RewriteSend(message, writes[1..], written + k);
        WriteOutcome(message[..k] + rest.out, rest.ok, 1 + rest.used)
  }

  /** SendAll as written: each retry passes the whole message to Write. */
  method SendAllAsWritten(conn: Conn, message: seq<byte>) returns (ok: bool)
    modifies conn
    ensures var o := RewriteSend(message, old(conn.writeSteps), 0);
      && ok == o.ok
      && conn.sent == old(conn.sent) + o.out
      && conn.writeSteps == old(conn.writeSteps)[o.used..]
    ensures conn.incoming == old(conn.incoming) && conn.readSteps == old(conn.readSteps)
  {
    ghost var whole := RewriteSend(message, conn.writeSteps, 0);
    ghost var sent0, steps0 := conn.sent, conn.writeSteps;
    ghost var now := whole;
    var written := 0;
    while written < |message|
      invariant |conn.writeSteps| <= |steps0| && conn.writeSteps == steps0[|steps0| - |conn.writeSteps|..]
      invariant now == RewriteSend(message, conn.writeSteps, written)
      invariant whole.ok == now.ok
      invariant sent0 + whole.out == conn.sent + now.out
      invariant whole.used == |steps0| - |conn.writeSteps| + now.used
      invariant conn.incoming == old(conn.incoming) && conn.readSteps == old(conn.readSteps)
      decreases |message| - written
    {
      ghost var steps, before := conn.writeSteps, conn.sent;
      var n, wrote := conn.Write(message);
      if !wrote || n == 0 {
        return false;
      }
      ghost var next := RewriteSend(message, conn.writeSteps, written + n);
      RewriteStep(message, steps, written, n);
      assert now.out == message[..n] + next.out;
      Utils.AppendAssoc(before, message[..n], next.out);
      now := next;
      written := written + n;
    }
    assert now == WriteOutcome([], true, 0);
    ok := true;
  }

  /** One call's worth of RewriteSend. */
  lemma RewriteStep(message: seq<byte>, steps: seq<IoStep>, written: nat, n: nat)
    requires written < |message| && steps != [] && steps[0].Move?
    requires n == Min(steps[0].n, |message|) && n > 0
    ensures var now := RewriteSend(message, steps, written);
      var next := RewriteSend(message, steps[1..], written + n);
      && now.ok == next.ok && now.out == message[..n] + next.out && now.used == 1 + next.used
  {
  }

  /** SendAll with each retry passing the part not yet written. */
  method SendAll(conn: Conn, message: seq<byte>) returns (ok: bool)
    modifies conn
    ensures ok <==> Fills(|message|, old(conn.writeSteps), |message|)
    ensures ok ==> conn.sent == old(conn.sent) + message
    ensures !ok ==> exists w :: 0 <= w < |message| && conn.sent == old(conn.sent) + message[..w]
    ensures conn.incoming == old(conn.incoming) && conn.readSteps == old(conn.readSteps)
  {
    var written := 0;
    while written < |message|
      invariant 0 <= written <= |message|
      invariant conn.sent == old(conn.sent) + message[..written]
      invariant Fills(|message|, old(conn.writeSteps), |message|)
                == Fills(|message| - written, conn.writeSteps, |message| - written)
      invariant conn.incoming == old(conn.incoming) && conn.readSteps == old(conn.readSteps)
      decreases |message| - written
    {
      var n, wrote := conn.Write(message[written..]);
      if !wrote || n == 0 {
        return false;
      }
      assert message[written..][..n] == message[written..written + n];
      assert message[..written + n] == message[..written] + message[written..written + n];
      written := written + n;
    }
    assert message[..written] == message;
    ok := true;
  }

  /** A short write that reports no error makes SendAll as written repeat the
      start of the message and still report success: two one-byte writes of
      a two-byte message put its first byte on the wire twice. The corrected
      SendAll sends the message. */
  lemma RewriteRepeatsPrefix()
    ensures RewriteSend([1, 2], [Move(1), Move(1)], 0) == WriteOutcome([1, 1], true, 2)
    ensures Fills(2, [Move(1), Move(1)], 2)
  {
    var writes: seq<IoStep> := [Move(1), Move(1)];
    assert writes[1..] == [Move(1)] && writes[1..][1..] == [];
    assert RewriteSend([1, 2], [], 2) == WriteOutcome([], true, 0);
    assert RewriteSend([1, 2], [Move(1)], 1) == WriteOutcome([1], true, 1);
    assert Fills(0, [], 0);
    assert Fills(1, [Move(1)], 1);
  }

  /** When the first write takes the whole message, both versions agree. */
  lemma RewriteWholeWrite(message: seq<byte>, writes: seq<IoStep>)
    requires message != [] && writes != [] && writes[0].Move? && writes[0].n >= |message|
    ensures RewriteSend(message, writes, 0) == WriteOutcome(message, true, 1)
  {
    assert RewriteSend(message, writes[1..], |message|) == WriteOutcome([], true, 0);
    assert message[..|message|] == message;
  }

  /** io.Writer's contract for a Write of `len` bytes: it fails, or it takes
      them all (a Write that returns fewer must also return an error). */
  predicate KeepsWriterContract(writes: seq<IoStep>, len: nat)
  {
    writes == [] || writes[0].Fail? || writes[0].n >= len
  }

  /** While the connection keeps io.Writer's contract, SendAll as written and
      the corrected SendAll agree: both succeed exactly when the first write
      does, and then put the message on the wire once. */
  lemma ConformingWriteAgrees(message: seq<byte>, writes: seq<IoStep>)
    requires KeepsWriterContract(writes, |message|)
    ensures RewriteSend(message, writes, 0).ok == Fills(|message|, writes, |message|)
    ensures RewriteSend(message, writes, 0).ok ==> RewriteSend(message, writes, 0).out == message
  {
    if message != [] && writes != [] && writes[0].Move? {
      RewriteWholeWrite(message, writes);
      assert Fills(0, writes[1..], 0);
    }
  }

  /** sendFixedSize: put the length and then `data` on the wire with SendAll
      as written. Under io.Writer's contract that is exactly the frame. */
  method SendFixedSize(conn: Conn, data: seq<byte>) returns (ok: bool)
    modifies conn
    ensures var o := RewriteSend(Frame(data), old(conn.writeSteps), 0);
      ok == o.ok && conn.sent == old(conn.sent) + o.out
    ensures KeepsWriterContract(old(conn.writeSteps), |Frame(data)|) ==>
      && (ok <==> Fills(|Frame(data)|, old(conn.writeSteps), |Frame(data)|))
      && (ok ==> conn.sent == old(conn.sent) + Frame(data))
  {
    ghost var conforms := KeepsWriterContract(conn.writeSteps, |Frame(data)|);
    if conforms {
      ConformingWriteAgrees(Frame(data), conn.writeSteps);
    }
    var sizeBuf := BigEndian32(U32OfNat(|data|));
    var dataBin := sizeBuf + data;
    ok := SendAllAsWritten(conn, dataBin);
  }

  /** The shared body of recvMovieBatch, recvReviewBatch, recvCreditBatch and
      recvResults: read the length, read that many bytes, and decode them
      with the JSON decoder of the expected message type. */
  method RecvMessage<T>(conn: Conn, decode: seq<byte> -> Option<T>) returns (r: Result<T, CommError>)
    modifies conn
    ensures r.Ok? ==>
              && Unframe(old(conn.incoming)).Some?
              && decode(Unframe(old(conn.incoming)).value.payload) == Some(r.value)
              && conn.incoming == Unframe(old(conn.incoming)).value.rest
    ensures Unframe(old(conn.incoming)).None? ==> r.Err?
    ensures conn.sent == old(conn.sent)
  {
    var sizeBuf := RecvAll(conn, SIZE);
    if sizeBuf.Err? {
      return Err(sizeBuf.error);
    }
    var size := Uint32(sizeBuf.value);
    ghost var afterSize := conn.incoming;
    var dataBuf := RecvAll(conn, size);
    if dataBuf.Err? {
      return Err(dataBuf.error);
    }
    assert old(conn.incoming)[SIZE..][..size] == old(conn.incoming)[SIZE..SIZE + size];
    var batch := decode(dataBuf.value);
    if batch.None? {
      return Err(DecodeError);
    }
    r := Ok(batch.value);
  }
}
