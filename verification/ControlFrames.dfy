/** The control channel's frames: a big-endian 32-bit length, then the payload. */
module ControlFrames {
  import opened Common

  const MAX_CTRL_FRAME: nat := 4096
  const U32_LIMIT: nat := 0x1_0000_0000

  datatype ReadError = UnexpectedEof | TransportFailed | Oversized(len: nat) | OutOfMemory(len: nat)

  datatype ReadResult = Ok(payload: seq<byte>) | Err(error: ReadError)

  datatype WriteResult = Written | Refused | WriteFailed

  /** What the reader's side meets: a transport error or a plain end after the last byte, and the largest buffer it can get. */
  datatype Conditions = Conditions(broken: bool, memory: nat)
  {
    function AtEnd(): ReadError {
      if broken then TransportFailed else UnexpectedEof
    }
  }

  function ToBigEndian(n: nat): (bytes: seq<byte>)
    requires n < U32_LIMIT
    ensures |bytes| == 4
  {
    [n / 0x100_0000, n / 0x1_0000 % 0x100, n / 0x100 % 0x100, n % 0x100]
  }

  function FromBigEndian(bytes: seq<byte>): (n: nat)
    requires |bytes| == 4
    ensures n < U32_LIMIT
  {
    var a: nat, b: nat, c: nat, d: nat := bytes[0], bytes[1], bytes[2], bytes[3];
    a * 0x100_0000 + b * 0x1_0000 + c * 0x100 + d
  }

  /** The prefix, byte by byte: the highest comes first, so a short length is all zeros but for the last byte. */
  lemma PrefixByValue(n: nat)
    requires n < 4_294_967_296
    ensures var b := ToBigEndian(n);
            && n == (b[0] as nat) * 16_777_216 + (b[1] as nat) * 65_536 + (b[2] as nat) * 256 + (b[3] as nat)
            && (n < 256 ==> b == [0, 0, 0, n])
            && (256 <= n < 65_536 ==> b == [0, 0, n / 256, n % 256])
  {
    var a, b, c := n / 0x100, n / 0x1_0000, n / 0x100_0000;
    assert n == a * 0x100 + n % 0x100;
    assert a == b * 0x100 + a % 0x100 && b == c * 0x100 + b % 0x100;
  }

  lemma BigEndianRoundTrip(n: nat)
    requires n < U32_LIMIT
    ensures FromBigEndian(ToBigEndian(n)) == n
  {
    var a, b, c := n / 0x100, n / 0x1_0000, n / 0x100_0000;
    assert n == a * 0x100 + n % 0x100;
    assert a == b * 0x100 + a % 0x100 && b == c * 0x100 + b % 0x100;
  }

  lemma BigEndianIsCanonical(bytes: seq<byte>)
    requires |bytes| == 4
    ensures ToBigEndian(FromBigEndian(bytes)) == bytes
  {
    var n := FromBigEndian(bytes);
    var a: nat, b: nat, c: nat := bytes[0], bytes[1], bytes[2];
    assert n / 0x100 == a * 0x1_0000 + b * 0x100 + c;
    assert n / 0x1_0000 == a * 0x100 + b;
    assert n / 0x100_0000 == a;
  }

  function Frame(payload: seq<byte>): seq<byte>
    requires |payload| <= MAX_CTRL_FRAME
  {
    ToBigEndian(|payload|) + payload
  }

  /** One `ctrl_read` off `stream`: the result and the bytes left. A read that hits the end has consumed everything. */
  function ReadFrame(stream: seq<byte>, cond: Conditions): (ReadResult, seq<byte>) {
    if |stream| < 4 then (Err(cond.AtEnd()), [])
    else
      var len := FromBigEndian(stream[..4]);
      if len > MAX_CTRL_FRAME then (Err(Oversized(len)), stream[4..])
      else if len > cond.memory then (Err(OutOfMemory(len)), stream[4..])
      else if |stream| < 4 + len then (Err(cond.AtEnd()), [])
      else (Ok(stream[4..4 + len]), stream[4 + len..])
  }

  /** How many of `len` bytes a transport takes that fails after `room` more, if it ever does. */
  function Accepted(room: Option<nat>, len: nat): nat {
    if room.None? then len else Min(room.value, len)
  }

  /** What room is left after `k` accepted bytes. */
  function Left(room: Option<nat>, k: nat): Option<nat>
    requires room.Some? ==> k <= room.value
  {
    if room.None? then None else Some(room.value - k)
  }

  lemma SplitFrame(prefix: seq<byte>, data: seq<byte>, k: nat)
    requires k <= |prefix + data|
    ensures (prefix + data)[..k] == if k < |prefix| then prefix[..k] else prefix + data[..k - |prefix|]
  {
  }

  /** One frame, followed by anything, is read back whole and leaves exactly what followed, if its buffer can be had. */
  lemma FrameRoundTrip(payload: seq<byte>, rest: seq<byte>, cond: Conditions)
    requires |payload| <= 4096
    ensures ReadFrame(Frame(payload) + rest, cond)
         == if |payload| <= cond.memory then (Ok(payload), rest) else (Err(OutOfMemory(|payload|)), payload + rest)
  {
    var stream := Frame(payload) + rest;
    assert stream[..4] == ToBigEndian(|payload|) && stream[4..] == payload + rest;
    BigEndianRoundTrip(|payload|);
  }

  /** A frame cut short by a failing write is never taken for a whole one. */
  lemma TornFrameIsNotRead(payload: seq<byte>, k: nat, cond: Conditions)
    requires |payload| <= MAX_CTRL_FRAME && k < |Frame(payload)|
    ensures ReadFrame(Frame(payload)[..k], cond)
         == if k >= 4 && |payload| > cond.memory then (Err(OutOfMemory(|payload|)), payload[..k - 4])
            else (Err(if cond.broken then TransportFailed else UnexpectedEof), [])
  {
    if k >= 4 {
      assert Frame(payload)[..k][..4] == ToBigEndian(|payload|) && Frame(payload)[..k][4..] == payload[..k - 4];
      BigEndianRoundTrip(|payload|);
    }
  }

  /** Whatever is read successfully is what writing it would have produced. */
  lemma ReadsOnlyFrames(stream: seq<byte>, cond: Conditions, payload: seq<byte>, rest: seq<byte>)
    requires ReadFrame(stream, cond) == (Ok(payload), rest)
    ensures |payload| <= MAX_CTRL_FRAME && stream == Frame(payload) + rest
  {
    BigEndianIsCanonical(stream[..4]);
    assert stream == stream[..4] + payload + rest;
  }

  predicate AllFit(payloads: seq<seq<byte>>) {
    forall i :: 0 <= i < |payloads| ==> |payloads[i]| <= MAX_CTRL_FRAME
  }

  function Frames(payloads: seq<seq<byte>>): seq<byte>
    requires AllFit(payloads)
  {
    if payloads == [] then [] else Frame(payloads[0]) + Frames(payloads[1..])
  }

  lemma {:induction false} FramesConcat(front: seq<seq<byte>>, back: seq<seq<byte>>)
    requires AllFit(front) && AllFit(back)
    ensures Frames(front + back) == Frames(front) + Frames(back)
  {
    if front == [] {
      assert front + back == back;
    } else {
      assert (front + back)[1..] == front[1..] + back;
      FramesConcat(front[1..], back);
    }
  }

  lemma FramesSnoc(payloads: seq<seq<byte>>, n: nat)
    requires n < |payloads| && AllFit(payloads[..n]) && |payloads[n]| <= MAX_CTRL_FRAME
    ensures AllFit(payloads[..n + 1]) && Frames(payloads[..n + 1]) == Frames(payloads[..n]) + Frame(payloads[n])
  {
    assert payloads[..n + 1] == payloads[..n] + [payloads[n]];
    FramesConcat(payloads[..n], [payloads[n]]);
    assert Frames([payloads[n]]) == Frame(payloads[n]) + Frames([]);
  }

  lemma FramesGrow(payloads: seq<seq<byte>>, n: nat)
    requires n <= |payloads| && AllFit(payloads)
    ensures |Frames(payloads[..n])| <= |Frames(payloads)|
  {
    assert payloads == payloads[..n] + payloads[n..];
    FramesConcat(payloads[..n], payloads[n..]);
  }

  lemma NoRoomForAll(payloads: seq<seq<byte>>, n: nat, room: Option<nat>)
    requires n < |payloads| && AllFit(payloads[..n + 1])
    requires Accepted(room, |Frames(payloads[..n + 1])|) < |Frames(payloads[..n + 1])|
    ensures AllFit(payloads) ==> Accepted(room, |Frames(payloads)|) < |Frames(payloads)|
  {
    if AllFit(payloads) {
      FramesGrow(payloads, n + 1);
    }
  }

  /** Up to `n` frames read in a row, stopping at the first failure, and the bytes left. */
  function ReadFrames(n: nat, stream: seq<byte>, cond: Conditions): (seq<seq<byte>>, seq<byte>) {
    if n == 0 then ([], stream)
    else
      var (first, rest) := ReadFrame(stream, cond);
      if first.Err? then ([], rest)
      else
        var (more, left) := ReadFrames(n - 1, rest, cond);
        ([first.payload] + more, left)
  }

  /** Any sequence of frames followed by arbitrary bytes is read back unchanged, leaving those bytes. */
  lemma {:induction false} FramesRoundTrip(payloads: seq<seq<byte>>, rest: seq<byte>, cond: Conditions)
    requires forall i :: 0 <= i < |payloads| ==> |payloads[i]| <= MAX_CTRL_FRAME && |payloads[i]| <= cond.memory
    ensures ReadFrames(|payloads|, Frames(payloads) + rest, cond) == (payloads, rest)
  {
    if payloads == [] {
      assert Frames(payloads) + rest == rest;
    } else {
      var more := Frames(payloads[1..]);
      assert Frames(payloads) + rest == Frame(payloads[0]) + (more + rest);
      FrameRoundTrip(payloads[0], more + rest, cond);
      FramesRoundTrip(payloads[1..], rest, cond);
      assert [payloads[0]] + payloads[1..] == payloads;
    }
  }

  /** An oversized length prefix is refused having consumed just its four bytes, whatever follows. */
  lemma OversizedIsRefusedAtThePrefix(len: nat, rest: seq<byte>, cond: Conditions)
    requires 4096 < len < 4_294_967_296
    ensures ReadFrame(ToBigEndian(len) + rest, cond) == (Err(Oversized(len)), rest)
  {
    var stream := ToBigEndian(len) + rest;
    assert stream[..4] == ToBigEndian(len) && stream[4..] == rest;
    BigEndianRoundTrip(len);
  }

  /** A byte stream; writes append, reads consume from the front. */
  class ByteStream {
    var bytes: seq<byte>
    var room: Option<nat>
    const cond: Conditions

    /** An empty stream whose transport takes `room` bytes before it fails, if it ever does. */
    constructor (room: Option<nat>, cond: Conditions)
      ensures bytes == [] && this.room == room && this.cond == cond
    {
      bytes := [];
      this.room, this.cond := room, cond;
    }

    /** `read_exact`: all `n` bytes, or the end of the stream. */
    method ReadExact(n: nat) returns (ok: bool, buf: seq<byte>)
      modifies this`bytes
      ensures ok == (|old(bytes)| >= n)
      ensures ok ==> buf == old(bytes)[..n] && bytes == old(bytes)[n..]
      ensures !ok ==> bytes == []
    {
      if |bytes| >= n {
        ok, buf, bytes := true, bytes[..n], bytes[n..];
      } else {
        ok, buf, bytes := false, [], [];
      }
    }

    /** `write_all`: everything, or as much as the transport took before it failed. */
    method WriteAll(data: seq<byte>) returns (ok: bool)
      modifies this
      ensures var k := Accepted(old(room), |data|);
              && ok == (k == |data|) && bytes == old(bytes) + data[..k]
              && room == Left(old(room), k)
    {
      var k := Accepted(room, |data|);
      bytes := bytes + data[..k];
      room := Left(room, k);
      ok := k == |data|;
    }

    method CtrlRead() returns (r: ReadResult)
      modifies this`bytes
      ensures (r, bytes) == ReadFrame(old(bytes), cond)
    {
      var ok, prefix := ReadExact(4);
      if !ok {
        return Err(cond.AtEnd());
      }
      var len := FromBigEndian(prefix);
      if len > MAX_CTRL_FRAME {
        return Err(Oversized(len));
      }
      if len > cond.memory {
        return Err(OutOfMemory(len));
      }
      var payload;
      ok, payload := ReadExact(len);
      if !ok {
        return Err(cond.AtEnd());
      }
      assert old(bytes)[4..][..len] == old(bytes)[4..4 + len] && old(bytes)[4..][len..] == old(bytes)[4 + len..];
      r := Ok(payload);
    }

    /** An oversized frame is refused before anything is written; a failing transport leaves a proper prefix of the frame. */
    method CtrlWrite(data: seq<byte>) returns (r: WriteResult)
      modifies this
      ensures r.Refused? <==> |data| > 4096
      ensures r.Refused? ==> bytes == old(bytes) && room == old(room)
      ensures !r.Refused? ==>
                var k := Accepted(old(room), |Frame(data)|);
                && (r.Written? <==> k == |Frame(data)|) && bytes == old(bytes) + Frame(data)[..k]
                && room == Left(old(room), k)
    {
      if |data| > MAX_CTRL_FRAME {
        return Refused;
      }
      var prefix := ToBigEndian(|data|);
      SplitFrame(prefix, data, Accepted(room, |Frame(data)|));
      var ok := WriteAll(prefix);
      if !ok {
        return WriteFailed;
      }
      ok := WriteAll(data);
      r := if ok then Written else WriteFailed;
    }

    /**
     Writes frames in a row, up to the first that is refused or fails. It writes them all
     exactly when each is small enough and the transport has room for them together.
     */
    method WriteFrames(payloads: seq<seq<byte>>) returns (n: nat, r: WriteResult)
      modifies this
      ensures n <= |payloads| && AllFit(payloads[..n])
      ensures r.Written? <==> n == |payloads|
      ensures r.Written? <==> AllFit(payloads) && Accepted(old(room), |Frames(payloads)|) == |Frames(payloads)|
      ensures r.Written? ==> bytes == old(bytes) + Frames(payloads)
      ensures r.Refused? ==> |payloads[n]| > MAX_CTRL_FRAME && bytes == old(bytes) + Frames(payloads[..n])
      ensures r.WriteFailed? ==>
                && |payloads[n]| <= MAX_CTRL_FRAME
                && exists k: nat :: k < |Frame(payloads[n])|
                                    && bytes == old(bytes) + Frames(payloads[..n]) + Frame(payloads[n])[..k]
    {
      n := 0;
      while n < |payloads|
        invariant n <= |payloads| && AllFit(payloads[..n]) && bytes == old(bytes) + Frames(payloads[..n])
        invariant Accepted(old(room), |Frames(payloads[..n])|) == |Frames(payloads[..n])|
        invariant room == Left(old(room), |Frames(payloads[..n])|)
      {
        r := CtrlWrite(payloads[n]);
        if r.Refused? {
          ghost var refused := n;
          assert |payloads[refused]| > MAX_CTRL_FRAME;
          return;
        }
        FramesSnoc(payloads, n);
        if r.WriteFailed? {
          NoRoomForAll(payloads, n, old(room));
          return;
        }
        n := n + 1;
      }
      assert payloads[..n] == payloads;
      r := Written;
    }

    /** Reads frames in a row, up to the first that cannot be read. */
    method ReadMany(n: nat) returns (payloads: seq<seq<byte>>)
      modifies this`bytes
      ensures (payloads, bytes) == ReadFrames(n, old(bytes), cond)
    {
      payloads := [];
      for i := 0 to n
        invariant ReadFrames(n, old(bytes), cond).0 == payloads + ReadFrames(n - i, bytes, cond).0
        invariant ReadFrames(n, old(bytes), cond).1 == ReadFrames(n - i, bytes, cond).1
      {
        ghost var more := ReadFrames(n - i, bytes, cond).0;
        var r := CtrlRead();
        if r.Err? {
          assert payloads + more == payloads;
          return;
        }
        assert payloads + more == payloads + [r.payload] + more[1..];
        payloads := payloads + [r.payload];
      }
      assert payloads + ReadFrames(0, bytes, cond).0 == payloads;
    }
  }

  /**
   Frames written to a fresh stream and read back: where buffers can be had for them, what
   comes back is exactly the frames that were written whole, and a further read finds no
   frame in what a failing transport left behind.
   */
  method WriteAndReadBack(payloads: seq<seq<byte>>, room: Option<nat>, cond: Conditions)
    returns (n: nat, r: WriteResult, back: seq<seq<byte>>, last: ReadResult)
    ensures n <= |payloads|
    ensures (forall i :: 0 <= i < n ==> |payloads[i]| <= cond.memory) ==> back == payloads[..n] && last.Err?
    ensures n == |payloads| <==> AllFit(payloads) && Accepted(room, |Frames(payloads)|) == |Frames(payloads)|
    ensures r.Written? <==> n == |payloads|
  {
    var stream := new ByteStream(room, cond);
    n, r := stream.WriteFrames(payloads);
    ghost var whole, rest := Frames(payloads[..n]), [];
    if r.WriteFailed? {
      ghost var k: nat :| k < |Frame(payloads[n])| && stream.bytes == [] + whole + Frame(payloads[n])[..k];
      rest := Frame(payloads[n])[..k];
      TornFrameIsNotRead(payloads[n], k, cond);
    } else {
      assert n == |payloads| ==> payloads[..n] == payloads;
    }
    assert stream.bytes == whole + rest;
    if forall i :: 0 <= i < n ==> |payloads[i]| <= cond.memory {
      FramesRoundTrip(payloads[..n], rest, cond);
    }
    back := stream.ReadMany(n);
    last := stream.CtrlRead();
  }
}
