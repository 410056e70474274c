/**
 The byte-stream adapters over H2 streams. The H2 library is outside: what it yields
 on each poll is a parameter.
 */
module H2Adapters {
  import opened Common

  function Concat(chunks: seq<seq<byte>>): seq<byte> {
    if chunks == [] then [] else Concat(chunks[..|chunks| - 1]) + chunks[|chunks| - 1]
  }

  // ----- reading

  /** What `poll_data` yields. */
  datatype Polled = Data(chunk: seq<byte>) | Error | End | Pending

  datatype ReadPoll = ReadReady(bytes: seq<byte>) | ReadError | ReadPending

  function Carried(polled: Polled): seq<byte> {
    if polled.Data? then polled.chunk else []
  }

  /** The bytes a sequence of polls delivers. */
  function Bytes(incoming: seq<Polled>): seq<byte> {
    if incoming == [] then [] else Carried(incoming[0]) + Bytes(incoming[1..])
  }

  lemma Uncons(received: seq<byte>, incoming: seq<Polled>)
    requires incoming != []
    ensures received + Bytes(incoming) == received + Carried(incoming[0]) + Bytes(incoming[1..])
    ensures Carried(incoming[0]) == [] ==> received + Bytes(incoming) == received + Bytes(incoming[1..])
  {
    Assoc(received, Carried(incoming[0]), Bytes(incoming[1..]));
  }

  lemma Assoc(a: seq<byte>, b: seq<byte>, c: seq<byte>)
    ensures a + (b + c) == a + b + c && (b == [] ==> b + c == c)
  {
  }

  lemma Split(handed: seq<byte>, data: seq<byte>, n: nat)
    requires n <= |data|
    ensures handed + data == handed + data[..n] + data[n..]
    ensures n == |data| ==> handed + data[..n] == handed + data
  {
  }

  /** How a read-to-end loop stops. */
  datatype ReadEnd = AtEnd | NothingMore | ReadFailed

  /**
   What a loop that reads until a zero-byte read gets off the stream, and how it stops. An
   empty chunk is a zero-byte read like the end itself.
   */
  function ReadOut(incoming: seq<Polled>): (seq<byte>, ReadEnd) {
    if incoming == [] then ([], NothingMore)
    else match incoming[0]
      case Data(chunk) =>
        if chunk == [] then ([], AtEnd)
        else
          var (more, end) := ReadOut(incoming[1..]);
          (chunk + more, end)
      case Error => ([], ReadFailed)
      case End => ([], AtEnd)
      case Pending => ReadOut(incoming[1..])
  }

  /** Only chunks, and polls that have to wait. */
  predicate Flows(incoming: seq<Polled>) {
    forall i :: 0 <= i < |incoming| ==> incoming[i].Data? || incoming[i].Pending?
  }

  /** Some chunk with bytes in it comes after an empty one. */
  predicate BytesAfterEmpty(incoming: seq<Polled>) {
    exists i, j :: 0 <= i < j < |incoming| && incoming[i] == Data([]) && Carried(incoming[j]) != []
  }

  predicate Silent(incoming: seq<Polled>) {
    forall i :: 0 <= i < |incoming| ==> Carried(incoming[i]) == []
  }

  lemma {:induction false} SilentMeansNoBytes(incoming: seq<Polled>)
    ensures Silent(incoming) <==> Bytes(incoming) == []
  {
    if incoming != [] {
      SilentMeansNoBytes(incoming[1..]);
      assert forall i :: 0 <= i < |incoming| - 1 ==> incoming[1..][i] == incoming[i + 1];
    }
  }

  lemma AfterEmptyTail(incoming: seq<Polled>)
    requires incoming != []
    ensures BytesAfterEmpty(incoming) <==>
              BytesAfterEmpty(incoming[1..]) || (incoming[0] == Data([]) && !Silent(incoming[1..]))
  {
    var rest := incoming[1..];
    assert forall i :: 0 <= i < |rest| ==> rest[i] == incoming[i + 1];
    if BytesAfterEmpty(rest) {
      var i, j :| 0 <= i < j < |rest| && rest[i] == Data([]) && Carried(rest[j]) != [];
      assert incoming[i + 1] == Data([]) && Carried(incoming[j + 1]) != [];
    }
    if incoming[0] == Data([]) && !Silent(rest) {
      var j :| 0 <= j < |rest| && Carried(rest[j]) != [];
      assert Carried(incoming[j + 1]) != [];
    }
    if BytesAfterEmpty(incoming) {
      var i, j :| 0 <= i < j < |incoming| && incoming[i] == Data([]) && Carried(incoming[j]) != [];
      assert Carried(rest[j - 1]) != [];
      if i > 0 {
        assert rest[i - 1] == Data([]);
      }
    }
  }

  /**
   A read-to-end loop stops at an end, and gets every byte sent before the end of the stream
   exactly when no chunk with bytes in it follows an empty one.
   */
  lemma {:induction false} ReadsAllUnlessEmptyChunk(before: seq<Polled>, after: seq<Polled>)
    requires Flows(before)
    ensures ReadOut(before + [End] + after).1 == AtEnd
    ensures ReadOut(before + [End] + after).0 == Bytes(before) <==> !BytesAfterEmpty(before)
  {
    var stream := before + [End] + after;
    if before != [] {
      assert stream[1..] == before[1..] + [End] + after;
      AfterEmptyTail(before);
      SilentMeansNoBytes(before[1..]);
      ReadsAllUnlessEmptyChunk(before[1..], after);
      var chunk, more, bytes := Carried(before[0]), ReadOut(stream[1..]).0, Bytes(before[1..]);
      if before[0] != Data([]) {
        assert ReadOut(stream).0 == chunk + more && Bytes(before) == chunk + bytes;
        Cancels(chunk, more, bytes);
      } else {
        assert Silent(before[1..]) ==> !BytesAfterEmpty(before[1..]);
      }
    }
  }

  lemma Cancels(a: seq<byte>, b: seq<byte>, c: seq<byte>)
    ensures a + b == a + c <==> b == c
  {
    assert (a + b)[|a|..] == b && (a + c)[|a|..] == c;
  }

  /** One read of `room` bytes moves a prefix of what is available to the reader, and loses nothing of the rest. */
  lemma Drawn(out: seq<byte>, buf: seq<byte>, incoming: seq<Polled>, room: nat)
    requires buf != [] || (incoming != [] && incoming[0].Data? && incoming[0].chunk != [])
    ensures var available := if buf != [] then buf else incoming[0].chunk;
            var n, rest := Min(room, |available|), if buf != [] then incoming else incoming[1..];
            && out + available[..n] + available[n..] + ReadOut(rest).0 == out + buf + ReadOut(incoming).0
            && ReadOut(rest).1 == ReadOut(incoming).1
  {
    var available := if buf != [] then buf else incoming[0].chunk;
    var n, rest := Min(room, |available|), if buf != [] then incoming else incoming[1..];
    Split(out, available, n);
    Assoc(out, available, ReadOut(rest).0);
    assert buf == [] ==> out + buf == out;
  }

  class H2Recv {
    var buf: seq<byte>
    /** What the library answers to the data polls still to come; none left means pending. */
    var incoming: seq<Polled>
    /** Flow-control capacity handed back to the peer so far. */
    var released: nat
    /** History: the bytes taken off the stream and the bytes handed to the reader. */
    ghost var received: seq<byte>
    ghost var handed: seq<byte>

    /** Nothing received is lost, repeated or reordered, and all of its window was given back. */
    ghost predicate Valid()
      reads this
    {
      handed + buf == received && released == |received|
    }

    constructor (incoming: seq<Polled>)
      ensures Valid() && this.incoming == incoming && buf == [] && received == [] && handed == []
    {
      this.incoming := incoming;
      buf, released := [], 0;
      received, handed := [], [];
    }

    /** The answer the next data poll gets. */
    function Next(): Polled
      reads this
    {
      if incoming == [] then Pending else incoming[0]
    }

    /** The bytes a read can draw on: what is buffered, or else what the next poll carries. */
    function Available(): seq<byte>
      reads this
    {
      if buf != [] then buf else Carried(Next())
    }

    /** One `poll_read` into a buffer with `room` bytes left. The stream is polled only when nothing is buffered. */
    method PollRead(room: nat) returns (r: ReadPoll)
      requires Valid()
      modifies this
      ensures Valid()
      ensures incoming == if old(buf) == [] && old(incoming) != [] then old(incoming)[1..] else old(incoming)
      ensures received + Bytes(incoming) == old(received) + Bytes(old(incoming))
      ensures handed == if r.ReadReady? then old(handed) + r.bytes else old(handed)
      ensures r.ReadError? <==> old(buf) == [] && old(Next()).Error?
      ensures r.ReadPending? <==> old(buf) == [] && old(Next()).Pending?
      ensures r.ReadReady? ==> r.bytes == old(Available())[..Min(room, |old(Available())|)]
      ensures buf == if r.ReadReady? then old(Available())[|r.bytes|..] else []
    {
      if buf != [] {
        var n := Min(room, |buf|);
        Split(handed, buf, n);
        r := ReadReady(buf[..n]);
        handed, buf := handed + buf[..n], buf[n..];
        return;
      }
      if incoming == [] {
        return ReadPending;
      }
      var polled := incoming[0];
      Uncons(received, incoming);
      incoming := incoming[1..];
      match polled
      case Data(data) =>
        assert handed == received;
        received := received + data;
        released := released + |data|;
        var n := Min(room, |data|);
        Split(handed, data, n);
        r := ReadReady(data[..n]);
        handed := handed + data[..n];
        if n < |data| {
          buf := data[n..];
        }
      case Error => r := ReadError;
      case End => r := ReadReady([]);
      case Pending => r := ReadPending;
    }

    /** Any number of reads in a row, into buffers of any sizes. */
    method ReadMany(rooms: seq<nat>) returns (out: seq<byte>)
      requires Valid()
      modifies this
      ensures Valid()
      ensures handed == old(handed) + out
      ensures out + buf + Bytes(incoming) == old(buf) + Bytes(old(incoming))
    {
      out := [];
      for i := 0 to |rooms|
        invariant Valid() && handed == old(handed) + out
        invariant received + Bytes(incoming) == old(received) + Bytes(old(incoming))
      {
        var r := PollRead(rooms[i]);
        if r.ReadReady? {
          out := out + r.bytes;
        }
      }
      assert old(handed) + (out + buf + Bytes(incoming)) == old(handed) + out + buf + Bytes(incoming);
      assert old(handed) + (old(buf) + Bytes(old(incoming))) == old(handed) + old(buf) + Bytes(old(incoming));
      Cancels(old(handed), out + buf + Bytes(incoming), old(buf) + Bytes(old(incoming)));
    }

    /** Reads into buffers of `room` bytes until a read yields none or fails, polling again when it has to wait. */
    method ReadToEnd(room: nat) returns (out: seq<byte>, end: ReadEnd)
      requires Valid() && room > 0
      modifies this
      ensures Valid() && handed == old(handed) + out
      ensures out == old(buf) + ReadOut(old(incoming)).0 && end == ReadOut(old(incoming)).1
    {
      out := [];
      while true
        invariant Valid() && handed == old(handed) + out
        invariant out + buf + ReadOut(incoming).0 == old(buf) + ReadOut(old(incoming)).0
        invariant ReadOut(incoming).1 == ReadOut(old(incoming)).1
        decreases |incoming|, |buf|
      {
        if buf == [] && incoming == [] {
          return out, NothingMore;
        }
        if Available() != [] {
          Drawn(out, buf, incoming, room);
        }
        var r := PollRead(room);
        match r
        case ReadReady(bytes) =>
          if bytes == [] {
            return out, AtEnd;
          }
          out := out + bytes;
        case ReadError => return out, ReadFailed;
        case ReadPending =>
      }
    }
  }

  // ----- writing

  lemma SliceJoin(data: seq<byte>, i: nat, n: nat)
    requires i + n <= |data|
    ensures data[..i] + data[i..][..n] == data[..i + n]
  {
  }

  /** What `poll_capacity` yields: the window now granted, nothing yet, or a stream that is gone. */
  datatype Capacity = Granted(n: nat) | NotYet | Gone

  datatype WritePoll = Wrote(n: nat) | WritePending | WriteError

  /** The first answer a write with no window gets that is not an empty grant, and the answers after it. */
  function Settled(answers: seq<Capacity>): (Capacity, seq<Capacity>) {
    if answers == [] then (NotYet, [])
    else if answers[0] == Granted(0) then Settled(answers[1..])
    else (answers[0], answers[1..])
  }

  /** What a write of `len > 0` bytes comes to once the library has given `answer`. */
  function WriteOutcome(answer: Capacity, len: nat, refuses: bool): WritePoll {
    match answer
    case Granted(n) => if refuses then WriteError else Wrote(Min(n, len))
    case NotYet => WritePending
    case Gone => WriteError
  }

  /** All the window the library grants before it reports the stream gone. */
  function GrantedIn(answers: seq<Capacity>): nat {
    if answers == [] || answers[0].Gone? then 0
    else (if answers[0].Granted? then answers[0].n else 0) + GrantedIn(answers[1..])
  }

  lemma {:induction false} SettledGrants(answers: seq<Capacity>)
    ensures var (answer, left) := Settled(answers);
            && |left| <= |answers|
            && (answers != [] ==> |left| < |answers|)
            && GrantedIn(answers)
               == match answer { case Granted(n) => n + GrantedIn(left) case NotYet => GrantedIn(left) case Gone => 0 }
  {
    if answers != [] && answers[0] == Granted(0) {
      SettledGrants(answers[1..]);
    }
  }

  /** How a write-all ends: all accepted, out of answers to wait for, or failed. */
  datatype WriteEnd = AllWritten | StillWaiting | WriteFailed

  class H2Send {
    /** Flow-control window granted and not yet used. */
    var capacity: nat
    var sent: seq<byte>
    /** What the library answers to the capacity polls still to come; none left means pending. */
    var answers: seq<Capacity>
    /** How many more sends the library takes before it refuses, if it ever does. */
    var sendsLeft: Option<nat>
    /** History: all the window ever granted. */
    ghost var window: nat

    /** Every granted byte of window is either unused or carried a byte. */
    ghost predicate Valid()
      reads this
    {
      |sent| + capacity == window
    }

    constructor (answers: seq<Capacity>, sendsLeft: Option<nat>)
      ensures Valid() && this.answers == answers && this.sendsLeft == sendsLeft && capacity == 0 && sent == []
    {
      this.answers, this.sendsLeft := answers, sendsLeft;
      capacity, sent, window := 0, [], 0;
    }

    /** The library refuses the next send. */
    predicate Refuses()
      reads this
    {
      sendsLeft == Some(0)
    }

    /** One `poll_write`. */
    method PollWrite(buf: seq<byte>) returns (r: WritePoll)
      requires Valid()
      modifies this
      ensures Valid() && old(window) <= window
      ensures r.Wrote? ==> (r.n == 0 <==> buf == []) && r.n <= |buf| && sent == old(sent) + buf[..r.n]
      ensures !r.Wrote? ==> sent == old(sent) && buf != [] && sendsLeft == old(sendsLeft)
      ensures !r.Wrote? ==> capacity == 0 || (r.WriteError? && Refuses())
      ensures sendsLeft.None? <==> old(sendsLeft).None?
      ensures buf == [] ==> capacity == old(capacity) && answers == old(answers) && sendsLeft == old(sendsLeft)
      ensures buf != [] && old(capacity) > 0 ==>
                && answers == old(answers) && r == WriteOutcome(Granted(old(capacity)), |buf|, old(Refuses()))
                && (r.Wrote? ==> capacity == old(capacity) - r.n)
      ensures buf != [] && old(capacity) == 0 ==>
                && answers == Settled(old(answers)).1 && r == WriteOutcome(Settled(old(answers)).0, |buf|, old(Refuses()))
                && (r.Wrote? ==> capacity == Settled(old(answers)).0.n - r.n)
    {
      if buf == [] {
        return Wrote(0);
      }
      while true
        invariant Valid() && sent == old(sent) && old(window) <= window && sendsLeft == old(sendsLeft)
        invariant old(capacity) > 0 ==> answers == old(answers) && capacity == old(capacity)
        invariant old(capacity) == 0 ==>
                    if capacity > 0 then Settled(old(answers)) == (Granted(capacity), answers)
                    else Settled(old(answers)) == Settled(answers)
        decreases |answers|
      {
        var n := Min(capacity, |buf|);
        if n > 0 {
          if Refuses() {
            return WriteError;
          }
          sent, capacity := sent + buf[..n], capacity - n;
          sendsLeft := if sendsLeft.Some? then Some(sendsLeft.value - 1) else None;
          return Wrote(n);
        }
        if answers == [] {
          return WritePending;
        }
        var answer := answers[0];
        answers := answers[1..];
        match answer
        case Granted(m) => capacity, window := capacity + m, window + m;
        case NotYet => return WritePending;
        case Gone => return WriteError;
      }
    }

    /** The window in hand and all that is granted before the stream is gone. */
    function Reach(): nat
      reads this
    {
      capacity + GrantedIn(answers)
    }

    /**
     A caller that writes until everything is accepted, polling again after a pending
     answer. It sends exactly its input, or a prefix of it. Unless the library refuses a
     send, it finishes exactly when the window granted before the stream is gone covers it.
     */
    method WriteAll(data: seq<byte>) returns (end: WriteEnd, count: nat)
      requires Valid()
      modifies this
      ensures Valid()
      ensures count <= |data| && sent == old(sent) + data[..count]
      ensures end.AllWritten? <==> count == |data|
      ensures end.AllWritten? ==> |data| <= old(Reach())
      ensures !end.AllWritten? ==> old(Reach()) < |data| || (end.WriteFailed? && Refuses())
      ensures end.StillWaiting? ==> answers == [] && capacity == 0
      ensures old(sendsLeft).None? ==> sendsLeft.None?
    {
      count := 0;
      while count < |data|
        invariant Valid() && count <= |data| && sent == old(sent) + data[..count]
        invariant count + Reach() == old(Reach())
        invariant old(sendsLeft).None? ==> sendsLeft.None?
        decreases |data| - count, |answers|
      {
        SettledGrants(answers);
        var before := answers;
        var r := PollWrite(data[count..]);
        match r
        case Wrote(n) =>
          SliceJoin(data, count, n);
          count := count + n;
        case WritePending =>
          if before == [] {
            return StillWaiting, count;
          }
        case WriteError => return WriteFailed, count;
      }
      end := AllWritten;
    }
  }

  // ----- collecting a body

  datatype Body = Chunk(data: seq<byte>) | Broken

  datatype Collected = Ok(bytes: seq<byte>) | TooLong | StreamError

  function Chunks(body: seq<Body>): seq<seq<byte>>
    requires forall i :: 0 <= i < |body| ==> body[i].Chunk?
  {
    seq(|body|, i requires 0 <= i < |body| => body[i].data)
  }

  predicate AllChunks(body: seq<Body>) {
    forall i :: 0 <= i < |body| ==> body[i].Chunk?
  }

  lemma {:induction false} ConcatGrows(chunks: seq<seq<byte>>, n: nat)
    requires n <= |chunks|
    ensures |Concat(chunks[..n])| <= |Concat(chunks)|
  {
    if n == |chunks| {
      assert chunks[..n] == chunks;
    } else {
      assert chunks[..|chunks| - 1][..n] == chunks[..n];
      ConcatGrows(chunks[..|chunks| - 1], n);
    }
  }

  /** The chunks up to `n` are intact and come to `len` bytes. */
  predicate IntactTo(body: seq<Body>, n: nat, len: nat) {
    n <= |body| && AllChunks(body[..n]) && |Concat(Chunks(body[..n]))| == len
  }

  /** Chunk `n`, the first to do so, takes the body from `len` bytes to more than `max`. */
  predicate IsTooMuch(body: seq<Body>, n: nat, len: nat, max: nat) {
    && n < |body| && IntactTo(body, n, len) && len <= max
    && body[n].Chunk? && len + |body[n].data| > max
  }

  /**
   The whole body if it arrives intact and fits `max` bytes. Never more than `max` bytes are
   buffered, and capacity is released for exactly the chunks before the one that is too much
   or broken.
   */
  method CollectH2Body(body: seq<Body>, max: nat) returns (r: Collected, released: nat)
    ensures r.Ok? <==> AllChunks(body) && |Concat(Chunks(body))| <= max
    ensures r.Ok? ==> r.bytes == Concat(Chunks(body)) && released == |r.bytes|
    ensures released <= max
    ensures r.TooLong? ==> exists n: nat :: IsTooMuch(body, n, released, max)
    ensures r.StreamError? ==> exists n :: 0 <= n < |body| && IntactTo(body, n, released) && body[n].Broken?
  {
    var buf: seq<byte> := [];
    released := 0;
    for i := 0 to |body|
      invariant AllChunks(body[..i]) && buf == Concat(Chunks(body[..i])) && released == |buf| <= max
    {
      if body[i].Broken? {
        assert IntactTo(body, i, released);
        return StreamError, released;
      }
      var chunk := body[i].data;
      assert AllChunks(body[..i + 1]);
      assert Chunks(body[..i + 1])[..i] == Chunks(body[..i]);
      if |buf| + |chunk| > max {
        if AllChunks(body) {
          assert Chunks(body)[..i + 1] == Chunks(body[..i + 1]);
          ConcatGrows(Chunks(body), i + 1);
        }
        assert IsTooMuch(body, i, released, max);
        return TooLong, released;
      }
      released := released + |chunk|;
      buf := buf + chunk;
    }
    assert body[..|body|] == body;
    r := Ok(buf);
  }
}
