/** Sniffing the ClientHello off a public connection without consuming it. */
module ClientHelloPeek {
  import opened Common

  const PEEK_BUF_INIT: nat := 4096
  const PEEK_BUF_MAX: nat := 16384

  /** SNI host, and whether the ALPN list names `acme-tls/1`. */
  datatype Hello = Hello(host: string, isAcme: bool)

  /** `extract_sni_alpn`, kept abstract. */
  type Parser = seq<byte> -> Option<Hello>

  /** What one `peek` finds: bytes the peer has delivered so far, a closed connection, or an error. */
  datatype Arrival = Available(n: nat) | Closed | Errored

  /** `TimedOut`: the arrivals ran out before the loop returned. */
  datatype PeekResult = Found(hello: Hello) | NoHello | TimedOut

  /** More bytes never change what a parse has found. */
  ghost predicate PrefixStable(parse: Parser) {
    forall p: seq<byte>, q: seq<byte> {:trigger parse(p), parse(q)} :: p <= q && parse(p).Some? ==> parse(q) == parse(p)
  }

  /** Bytes accumulate: no peek sees fewer than an earlier one, or more than the peer sends. */
  predicate Accumulates(wire: seq<byte>, arrivals: seq<Arrival>) {
    && (forall i :: 0 <= i < |arrivals| && arrivals[i].Available? ==> 0 < arrivals[i].n <= |wire|)
    && (forall i, j :: 0 <= i < j < |arrivals| && arrivals[i].Available? && arrivals[j].Available? ==>
          arrivals[i].n <= arrivals[j].n)
  }

  /** The first `p` bytes hold a whole hello, and fit the largest buffer. */
  predicate CompleteAt(wire: seq<byte>, parse: Parser, p: nat) {
    p <= |wire| && p <= 16384 && parse(wire[..p]).Some?
  }

  predicate AllAvailable(arrivals: seq<Arrival>) {
    forall i :: 0 <= i < |arrivals| ==> arrivals[i].Available?
  }

  /** Bytes the buffers still to come can hold, beyond the one in use. */
  function LaterBuffers(buf: nat): nat {
    if buf == PEEK_BUF_INIT then 2 * PEEK_BUF_INIT + PEEK_BUF_MAX else if buf == 2 * PEEK_BUF_INIT then PEEK_BUF_MAX else 0
  }

  /** Peeks it takes to read `p` bytes: one into each buffer up to the first that holds them. */
  function Needed(p: nat): nat {
    if p <= 4096 then 1 else if p <= 8192 then 2 else 3
  }

  /**
   Peek `j` finds a whole hello of `p` bytes delivered, and the connection stays good for
   as many peeks as reading it takes. What the schedule holds after them is of no account.
   */
  predicate Delivers(wire: seq<byte>, arrivals: seq<Arrival>, parse: Parser, p: nat, j: nat) {
    && CompleteAt(wire, parse, p) && j + Needed(p) <= |arrivals|
    && AllAvailable(arrivals[..j + Needed(p)]) && arrivals[j].n >= p
  }

  /** The buffer peek `i` is made into: doubled by each earlier peek that filled it. */
  function BufferAt(arrivals: seq<Arrival>, i: nat): (buf: nat)
    requires i <= |arrivals|
    ensures buf == PEEK_BUF_INIT || buf == 2 * PEEK_BUF_INIT || buf == PEEK_BUF_MAX
  {
    if i == 0 then PEEK_BUF_INIT
    else
      var buf := BufferAt(arrivals, i - 1);
      if arrivals[i - 1].Available? && arrivals[i - 1].n >= buf then Min(2 * buf, PEEK_BUF_MAX) else buf
  }

  /** What peek `i` can see. */
  function SeenAt(wire: seq<byte>, arrivals: seq<Arrival>, i: nat): seq<byte>
    requires Accumulates(wire, arrivals) && i < |arrivals| && arrivals[i].Available?
  {
    wire[..Min(arrivals[i].n, BufferAt(arrivals, i))]
  }

  /** The connection is good up to peek `i`, which sees a whole hello. */
  predicate Reads(wire: seq<byte>, arrivals: seq<Arrival>, parse: Parser, i: nat)
    requires Accumulates(wire, arrivals)
  {
    i < |arrivals| && AllAvailable(arrivals[..i + 1]) && arrivals[i].Available? && parse(SeenAt(wire, arrivals, i)).Some?
  }

  /** A hello that is delivered is read by the time the buffer has grown to hold it. */
  lemma DeliveredIsRead(wire: seq<byte>, arrivals: seq<Arrival>, parse: Parser, p: nat, j: nat) returns (i: nat)
    requires PrefixStable(parse) && Accumulates(wire, arrivals) && Delivers(wire, arrivals, parse, p, j)
    ensures j <= i < j + Needed(p) && Reads(wire, arrivals, parse, i)
  {
    i := if p <= BufferAt(arrivals, j) then j else if p <= BufferAt(arrivals, j + 1) then j + 1 else j + 2;
    assert forall k :: 0 <= k < j + Needed(p) ==> arrivals[..j + Needed(p)][k] == arrivals[k];
    assert wire[..p] <= SeenAt(wire, arrivals, i);
  }

  /** A loop that read no hello was delivered none. */
  lemma NothingRead(wire: seq<byte>, arrivals: seq<Arrival>, parse: Parser, i: nat)
    requires PrefixStable(parse) && Accumulates(wire, arrivals) && i <= |arrivals|
    requires forall k: nat :: k < i ==> !Reads(wire, arrivals, parse, k)
    requires i == |arrivals| || !arrivals[i].Available?
    ensures forall k: nat :: !Reads(wire, arrivals, parse, k)
    ensures forall p: nat, j: nat :: !Delivers(wire, arrivals, parse, p, j)
  {
    forall p: nat, j: nat | Delivers(wire, arrivals, parse, p, j)
      ensures exists k: nat :: Reads(wire, arrivals, parse, k)
    {
      var k := DeliveredIsRead(wire, arrivals, parse, p, j);
    }
    forall k: nat
      ensures !Reads(wire, arrivals, parse, k)
    {
      if i <= k < |arrivals| {
        assert arrivals[..k + 1][i] == arrivals[i];
      }
    }
  }

  /** Where no prefix of a size a buffer can hold is complete, nothing can be read. */
  lemma NothingComplete(wire: seq<byte>, arrivals: seq<Arrival>, parse: Parser)
    requires Accumulates(wire, arrivals) && forall p: nat :: !CompleteAt(wire, parse, p)
    ensures forall k: nat :: !Reads(wire, arrivals, parse, k)
  {
    forall k: nat
      ensures !Reads(wire, arrivals, parse, k)
    {
      if k < |arrivals| && arrivals[k].Available? {
        assert !CompleteAt(wire, parse, Min(arrivals[k].n, BufferAt(arrivals, k)));
      }
    }
  }

  /** Whatever prefix it is found in, the hello is the same. */
  lemma FoundIsTheHello(wire: seq<byte>, parse: Parser, n: nat)
    requires PrefixStable(parse) && CompleteAt(wire, parse, n)
    ensures forall p: nat :: CompleteAt(wire, parse, p) ==> parse(wire[..p]) == parse(wire[..n])
  {
    forall p: nat | CompleteAt(wire, parse, p)
      ensures parse(wire[..p]) == parse(wire[..n])
    {
      assert if p <= n then wire[..p] <= wire[..n] else wire[..n] <= wire[..p];
    }
  }

  /** A full 16384-byte buffer that does not parse rules out every complete hello. */
  lemma NothingFits(wire: seq<byte>, parse: Parser)
    requires PrefixStable(parse) && |wire| >= PEEK_BUF_MAX && parse(wire[..PEEK_BUF_MAX]).None?
    ensures forall p: nat :: !CompleteAt(wire, parse, p)
  {
    forall p: nat
      ensures !CompleteAt(wire, parse, p)
    {
      if p <= PEEK_BUF_MAX {
        assert wire[..p] <= wire[..PEEK_BUF_MAX];
      }
    }
  }

  /**
   The peek loop. It finds a hello exactly when some peek sees a whole one before the
   connection fails, and then the one hello the peer sends. So a hello complete within
   16384 bytes is found under every schedule that delivers it, whatever comes later. The
   buffer grows at most twice, and the parser runs at most 28672 times.
   */
  method PeekSniAlpn(wire: seq<byte>, arrivals: seq<Arrival>, parse: Parser)
    returns (r: PeekResult, ghost growths: nat, ghost parses: nat)
    requires PrefixStable(parse) && Accumulates(wire, arrivals)
    ensures r.Found? <==> exists i: nat :: Reads(wire, arrivals, parse, i)
    ensures r.Found? ==> exists p: nat :: CompleteAt(wire, parse, p) && parse(wire[..p]) == Some(r.hello)
    ensures forall p: nat, j: nat :: Delivers(wire, arrivals, parse, p, j) ==> r == Found(parse(wire[..p]).value)
    ensures r.NoHello? ==> !AllAvailable(arrivals) || forall p: nat :: !CompleteAt(wire, parse, p)
    ensures r.TimedOut? ==> AllAvailable(arrivals)
    ensures growths <= 2 && parses <= 28672
  {
    var buf, seen := PEEK_BUF_INIT, 0;
    growths, parses := 0, 0;
    for i := 0 to |arrivals|
      invariant growths <= 2 && buf == BufferAt(arrivals, i) == PEEK_BUF_INIT * [1, 2, 4][growths]
      invariant seen < buf && seen <= |wire| && (seen > 0 ==> parse(wire[..seen]).None?)
      invariant AllAvailable(arrivals[..i]) && forall k: nat :: k < i ==> !Reads(wire, arrivals, parse, k)
      invariant parses + (buf - seen) + LaterBuffers(buf) <= 28672
    {
      if !arrivals[i].Available? {
        NothingRead(wire, arrivals, parse, i);
        return NoHello, growths, parses;
      }
      var n := Min(arrivals[i].n, buf);
      ghost var buf0, seen0 := buf, seen;
      assert SeenAt(wire, arrivals, i) == wire[..n] && AllAvailable(arrivals[..i + 1]);
      if n > seen {
        parses := parses + 1;
        var hello := parse(wire[..n]);
        if hello.Some? {
          assert Reads(wire, arrivals, parse, i) && CompleteAt(wire, parse, n);
          FoundIsTheHello(wire, parse, n);
          return Found(hello.value), growths, parses;
        }
        seen := n;
        if n >= buf {
          if buf >= PEEK_BUF_MAX {
            NothingFits(wire, parse);
            NothingComplete(wire, arrivals, parse);
            return NoHello, growths, parses;
          }
          buf := Min(buf * 2, PEEK_BUF_MAX);
          seen := 0;
          growths := growths + 1;
        }
        assert PEEK_BUF_MAX - buf < PEEK_BUF_MAX - buf0 || (buf == buf0 && buf - seen < buf0 - seen0);
      } else {
        assert wire[..n] <= wire[..seen];
      }
    }
    assert arrivals[..|arrivals|] == arrivals;
    NothingRead(wire, arrivals, parse, |arrivals|);
    r := TimedOut;
  }
}
