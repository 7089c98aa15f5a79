/** Codec.h's length header, and the reassembly of frames by RPC_Server::onMessage and
    RPC_Client::onMessage from whatever chunks read() delivers. */
module Framing {
  import opened Common

  const TWO32 := 0x1_0000_0000

  // ----- The header -----

  /** cal_headers: four bytes, most significant first, of a length kept in 32 bits. */
  function Header(size: nat): (h: Bytes)
    ensures |h| == 4
  {
    var bytes := size % TWO32;
    [bytes / 0x100_0000, bytes / 0x1_0000 % 0x100, bytes / 0x100 % 0x100, bytes % 0x100]
  }

  method CalHeaders(s: Bytes) returns (header: array<Byte>)
    ensures fresh(header) && header[..] == Header(|s|)
  {
    var bytes := |s| % TWO32;
    header := new Byte[4](_ => 0);
    header[0] := bytes / 0x100_0000 % 0x100;
    header[1] := bytes / 0x1_0000 % 0x100;
    header[2] := bytes / 0x100 % 0x100;
    header[3] := bytes % 0x100;
  }

  /** The value of a plain char, which is signed on some platforms and unsigned on others. */
  function CharValue(b: Byte, signed: bool): int {
    if signed && b >= 0x80 then b - 0x100 else b
  }

  /** `bytes += buf[i] << ...` four times, in 32-bit unsigned arithmetic. */
  function Declared(buf: Bytes, signed: bool): (n: nat)
    requires |buf| >= 4
    ensures n < TWO32
  {
    (CharValue(buf[0], signed) * 0x100_0000 + CharValue(buf[1], signed) * 0x1_0000
     + CharValue(buf[2], signed) * 0x100 + CharValue(buf[3], signed)) % TWO32
  }

  /** Bit k of a number. */
  predicate HasBit(n: nat, k: nat) {
    n / Pow2(k) % 2 == 1
  }

  lemma Pow2Values()
    ensures Pow2(7) == 0x80 && Pow2(15) == 0x8000 && Pow2(23) == 0x80_0000
  {
    assert Pow2(4) == 16;
    assert Pow2(8) == 256;
    assert Pow2(12) == 4096;
    assert Pow2(16) == 65536;
    assert Pow2(20) == 1048576;
  }

  /** The top bits of the three lower bytes are the length's bits 23, 15 and 7. */
  lemma TopBits(n: nat, a: nat, b: nat, c: nat, d: nat)
    requires n == a * 0x100_0000 + b * 0x1_0000 + c * 0x100 + d && b < 0x100 && c < 0x100 && d < 0x100
    ensures HasBit(n, 7) <==> d >= 0x80
    ensures HasBit(n, 15) <==> c >= 0x80
    ensures HasBit(n, 23) <==> b >= 0x80
  {
    Pow2Values();
    TopBit(n, 0x80, a * 0x1_0000 + b * 0x100 + c, d);
    TopBit(n, 0x8000, a * 0x100 + b, c * 0x100 + d);
    TopBit(n, 0x80_0000, a, b * 0x1_0000 + c * 0x100 + d);
  }

  lemma TopBit(n: nat, m: nat, high: nat, low: nat)
    requires m > 0 && low < 2 * m && n == high * (2 * m) + low
    ensures n / m % 2 == 1 <==> low >= m
  {
    var bit := if low >= m then 1 else 0;
    assert n == (2 * high + bit) * m + (low - bit * m);
    DivModUnique(n, m, 2 * high + bit, low - bit * m);
  }

  /** With unsigned chars the header always says the length; with signed ones exactly when bits
      7, 15 and 23 of the length are clear. */
  lemma HeaderRoundTrip(n: nat, signed: bool)
    requires n < TWO32
    ensures Declared(Header(n), signed) == n <==> !signed || (!HasBit(n, 7) && !HasBit(n, 15) && !HasBit(n, 23))
  {
    var h := Header(n);
    HeaderDigits(n);
    assert h == [h[0], h[1], h[2], h[3]];
    if signed {
      TopBits(n, h[0], h[1], h[2], h[3]);
      SignedSum(n, h[0], h[1], h[2], h[3]);
    } else {
      UnsignedSum(n, h[0], h[1], h[2], h[3]);
    }
  }

  /** It happens for the first length with bit 7 set. */
  lemma LengthMisread()
    ensures Declared(Header(128), true) == TWO32 - 128
  {
  }

  lemma UnsignedSum(n: nat, a: Byte, b: Byte, c: Byte, d: Byte)
    requires n < TWO32 && n == (a as int) * 0x100_0000 + (b as int) * 0x1_0000 + (c as int) * 0x100 + d
    ensures Declared([a, b, c, d], false) == n
  {
  }

  lemma HeaderDigits(n: nat)
    requires n < TWO32
    ensures var h := Header(n);
            n == (h[0] as int) * 0x100_0000 + (h[1] as int) * 0x1_0000 + (h[2] as int) * 0x100 + h[3]
  {
    Quotients(n);
    assert n % TWO32 == n;
    assert Header(n) == [n / 0x100_0000, n / 0x1_0000 % 0x100, n / 0x100 % 0x100, n % 0x100];
  }

  /** Dividing by a power of 0x100 is dividing by 0x100 that often. */
  lemma Quotients(n: nat)
    ensures n / 0x1_0000 == n / 0x100 / 0x100 && n / 0x100_0000 == n / 0x100 / 0x100 / 0x100
  {
    var m := n / 0x100;
    var k := m / 0x100;
    DivModUnique(n, 0x1_0000, k, (m % 0x100) * 0x100 + n % 0x100);
    DivModUnique(n, 0x100_0000, k / 0x100, (k % 0x100) * 0x1_0000 + (m % 0x100) * 0x100 + n % 0x100);
  }

  /** Each lower byte read as negative borrows from the one above it; the top byte's own borrow
      falls out of the 32 bits. */
  lemma SignedSum(n: nat, a: Byte, b: Byte, c: Byte, d: Byte)
    requires n == (a as int) * 0x100_0000 + (b as int) * 0x1_0000 + (c as int) * 0x100 + d
    ensures Declared([a, b, c, d], true) == n <==> b < 0x80 && c < 0x80 && d < 0x80
  {
    var borrowed := (if b >= 0x80 then 0x100_0000 else 0) + (if c >= 0x80 then 0x1_0000 else 0) + (if d >= 0x80 then 0x100 else 0);
    var top := if a >= 0x80 then TWO32 else 0;
    assert Declared([a, b, c, d], true) == (n - borrowed - top) % TWO32;
  }

  // ----- The server: one buffer and one declared length per connection -----

  type ConnId = nat

  /** `requests` lists the calls of handle_request with the buffer each was given. */
  datatype Server = Server(
    readBuffers: map<ConnId, Bytes>, readBytes: map<ConnId, nat>, requests: seq<(ConnId, Bytes)>)

  const NO_MESSAGES := Server(map[], map[], [])

  /** operator[]: the entry, or a fresh default. */
  function BufferOf(s: Server, c: ConnId): Bytes {
    if c in s.readBuffers then s.readBuffers[c] else []
  }

  function LengthOf(s: Server, c: ConnId): nat {
    if c in s.readBytes then s.readBytes[c] else 0
  }

  function OnMessage(s: Server, c: ConnId, buf: Bytes, signed: bool): Server {
    var buffer :=
      if c in s.readBuffers then s.readBuffers[c] + buf
      else if |buf| < 4 then []
      else buf[4..];
    var length :=
      if c !in s.readBuffers && |buf| >= 4 then Declared(buf, signed) else LengthOf(s, c);
    var s1 := s.(readBuffers := s.readBuffers[c := buffer], readBytes := s.readBytes[c := length]);
    if |buffer| == length then s1.(requests := s1.requests + [(c, buffer)]) else s1
  }

  datatype Event = Event(conn: ConnId, chunk: Bytes)

  function Serve(events: seq<Event>, signed: bool): Server {
    if events == [] then NO_MESSAGES
    else
      var e := events[|events| - 1];
      OnMessage(Serve(events[..|events| - 1], signed), e.conn, e.chunk, signed)
  }

  /** The chunks one connection delivered, in order. */
  function ChunksOf(events: seq<Event>, c: ConnId): seq<Bytes> {
    if events == [] then []
    else
      var before := ChunksOf(events[..|events| - 1], c);
      var e := events[|events| - 1];
      if e.conn == c then before + [e.chunk] else before
  }

  function RequestsOf(requests: seq<(ConnId, Bytes)>, c: ConnId): seq<Bytes> {
    if requests == [] then []
    else
      var before := RequestsOf(requests[..|requests| - 1], c);
      var r := requests[|requests| - 1];
      if r.0 == c then before + [r.1] else before
  }

  // What a connection's chunks should come to, said without the server.

  /** The declared length: a first chunk too short for a header declares nothing. */
  function Want(chunks: seq<Bytes>, signed: bool): nat {
    if chunks != [] && |chunks[0]| >= 4 then Declared(chunks[0], signed) else 0
  }

  /** The bytes that count: the stream after its header, or, after a short first chunk, which
      is dropped whole, everything that follows it. */
  function Body(chunks: seq<Bytes>): Bytes {
    if chunks == [] then []
    else if |chunks[0]| >= 4 then Concat(chunks)[Min(4, |Concat(chunks)|)..]
    else Concat(chunks[1..])
  }

  /** A request is due after the first k chunks when they end exactly with the frame. */
  predicate Due(chunks: seq<Bytes>, k: nat, signed: bool) {
    1 <= k <= |chunks| && |Body(chunks[..k])| == Want(chunks, signed)
  }

  ghost predicate EverDue(chunks: seq<Bytes>, signed: bool) {
    exists k :: Due(chunks, k, signed)
  }

  function RequestsDue(chunks: seq<Bytes>, signed: bool): seq<Bytes> {
    if chunks == [] then []
    else
      var before := RequestsDue(chunks[..|chunks| - 1], signed);
      if |Body(chunks)| == Want(chunks, signed) then before + [Body(chunks)] else before
  }

  lemma BodySnoc(chunks: seq<Bytes>, chunk: Bytes)
    requires chunks != []
    ensures Body(chunks + [chunk]) == Body(chunks) + chunk
  {
    ConcatSnoc(chunks, chunk);
    assert (chunks + [chunk])[1..] == chunks[1..] + [chunk];
    ConcatSnoc(chunks[1..], chunk);
    if |chunks[0]| >= 4 {
      FirstChunkFits(chunks);
    }
  }

  lemma FirstChunkFits(chunks: seq<Bytes>)
    requires chunks != []
    ensures |Concat(chunks)| >= |chunks[0]| && chunks[0] == Concat(chunks)[..|chunks[0]|]
  {
    ConcatSplit(chunks, 1);
    assert Concat(chunks[..1]) == chunks[0] by {
      assert chunks[..1] == [] + [chunks[0]];
      ConcatSnoc([], chunks[0]);
      assert [] + chunks[0] == chunks[0];
    }
  }

  /** Connections do not disturb one another: after any interleaving, each connection's buffer,
      length and requests are what its own chunks come to. */
  lemma {:induction false} ServeIsPerConnection(events: seq<Event>, c: ConnId, signed: bool)
    ensures var s, chunks := Serve(events, signed), ChunksOf(events, c);
            && (c in s.readBuffers <==> chunks != [])
            && (c in s.readBytes <==> chunks != [])
            && BufferOf(s, c) == Body(chunks)
            && LengthOf(s, c) == Want(chunks, signed)
            && RequestsOf(s.requests, c) == RequestsDue(chunks, signed)
  {
    if events != [] {
      var n := |events| - 1;
      var s0, s := Serve(events[..n], signed), Serve(events, signed);
      var e := events[n];
      var chunks0, chunks := ChunksOf(events[..n], c), ChunksOf(events, c);
      ServeIsPerConnection(events[..n], c, signed);
      if |s.requests| > |s0.requests| {
        assert s.requests[..|s.requests| - 1] == s0.requests;
      }
      if e.conn == c {
        assert chunks[..|chunks| - 1] == chunks0;
        if chunks0 == [] {
          assert chunks == [e.chunk];
          ConcatSnoc([], e.chunk);
          assert Concat(chunks) == e.chunk by { assert [] + [e.chunk] == chunks; assert [] + e.chunk == e.chunk; }
          assert chunks[1..] == [];
        } else {
          BodySnoc(chunks0, e.chunk);
        }
      }
    }
  }

  // ----- At most one request -----

  predicate NonEmpty(chunks: seq<Bytes>) {
    forall i | 0 <= i < |chunks| :: chunks[i] != []
  }

  lemma {:induction false} AtMostOneRequest(chunks: seq<Bytes>, signed: bool)
    requires NonEmpty(chunks)
    ensures RequestsDue(chunks, signed) != [] ==>
              && |Body(chunks)| >= Want(chunks, signed)
              && RequestsDue(chunks, signed) == [Body(chunks)[..Want(chunks, signed)]]
  {
    if chunks != [] {
      var n := |chunks| - 1;
      var before := chunks[..n];
      var want := Want(chunks, signed);
      assert chunks == before + [chunks[n]];
      AtMostOneRequest(before, signed);
      if n > 0 {
        BodySnoc(before, chunks[n]);
        assert Want(before, signed) == want;
        if RequestsDue(before, signed) != [] {
          assert Body(chunks)[..want] == Body(before)[..want];
        }
      }
      if |Body(chunks)| == want {
        assert Body(chunks)[..want] == Body(chunks);
      }
    }
  }

  lemma DueSnoc(chunks: seq<Bytes>, k: nat, signed: bool)
    requires chunks != []
    ensures Due(chunks, k, signed) <==>
            Due(chunks[..|chunks| - 1], k, signed) || (k == |chunks| && |Body(chunks)| == Want(chunks, signed))
  {
    if k == |chunks| {
      assert chunks[..k] == chunks;
    } else if 1 <= k < |chunks| {
      assert chunks[..|chunks| - 1][..k] == chunks[..k];
    }
  }

  lemma {:induction false} RequestIffDue(chunks: seq<Bytes>, signed: bool)
    ensures RequestsDue(chunks, signed) != [] <==> EverDue(chunks, signed)
  {
    if chunks != [] {
      var before := chunks[..|chunks| - 1];
      RequestIffDue(before, signed);
      forall k: nat
        ensures Due(chunks, k, signed) <==>
                Due(before, k, signed) || (k == |chunks| && |Body(chunks)| == Want(chunks, signed))
      {
        DueSnoc(chunks, k, signed);
      }
      if |Body(chunks)| == Want(chunks, signed) {
        assert Due(chunks, |chunks|, signed);
      } else if RequestsDue(before, signed) != [] {
        var k :| Due(before, k, signed);
        assert Due(chunks, k, signed);
      }
    }
  }

  /** Reassembly, for any interleaving of non-empty chunks from any connections: a connection
      whose first chunk holds a header has its own stream minus four bytes as its buffer; its
      request fires at most once, with exactly the declared bytes after the header; and it
      fires if and only if a chunk boundary falls at the end of the declared frame. */
  lemma Reassembly(events: seq<Event>, c: ConnId, signed: bool)
    requires NonEmpty(ChunksOf(events, c))
    requires ChunksOf(events, c) != [] && |ChunksOf(events, c)[0]| >= 4
    ensures var s, chunks := Serve(events, signed), ChunksOf(events, c);
            var end := 4 + Declared(chunks[0], signed);
            && |Concat(chunks)| >= 4
            && BufferOf(s, c) == Concat(chunks)[4..]
            && (RequestsOf(s.requests, c) != [] ==>
                 |Concat(chunks)| >= end && RequestsOf(s.requests, c) == [Concat(chunks)[4..end]])
            && (RequestsOf(s.requests, c) != [] <==> SomeChunkEndsAt(chunks, end))
  {
    ServeIsPerConnection(events, c, signed);
    ChunksReassemble(ChunksOf(events, c), signed);
  }

  lemma ChunksReassemble(chunks: seq<Bytes>, signed: bool)
    requires NonEmpty(chunks) && chunks != [] && |chunks[0]| >= 4
    ensures var end := 4 + Declared(chunks[0], signed);
            && |Concat(chunks)| >= 4
            && Body(chunks) == Concat(chunks)[4..]
            && (RequestsDue(chunks, signed) != [] ==>
                 |Concat(chunks)| >= end && RequestsDue(chunks, signed) == [Concat(chunks)[4..end]])
            && (RequestsDue(chunks, signed) != [] <==> SomeChunkEndsAt(chunks, end))
  {
    FrameOfChunks(chunks, signed);
    RequestIffDue(chunks, signed);
    DueIffEnds(chunks, signed);
  }

  lemma FrameOfChunks(chunks: seq<Bytes>, signed: bool)
    requires NonEmpty(chunks) && chunks != [] && |chunks[0]| >= 4
    ensures |Concat(chunks)| >= 4 && Body(chunks) == Concat(chunks)[4..]
    ensures var end := 4 + Declared(chunks[0], signed);
            RequestsDue(chunks, signed) != [] ==>
              |Concat(chunks)| >= end && RequestsDue(chunks, signed) == [Concat(chunks)[4..end]]
  {
    AtMostOneRequest(chunks, signed);
    FirstChunkFits(chunks);
    var stream, n := Concat(chunks), Declared(chunks[0], signed);
    assert Body(chunks) == stream[4..] && Want(chunks, signed) == n;
    assert |stream| >= 4 + n ==> stream[4..][..n] == stream[4..4 + n];
  }

  lemma DueIffEnds(chunks: seq<Bytes>, signed: bool)
    requires chunks != [] && |chunks[0]| >= 4
    ensures var end := 4 + Declared(chunks[0], signed);
            EverDue(chunks, signed) <==> SomeChunkEndsAt(chunks, end)
  {
    var end := 4 + Declared(chunks[0], signed);
    forall k: nat
      ensures Due(chunks, k, signed) <==> EndsAt(chunks, k, end)
    {
      if 1 <= k <= |chunks| {
        FirstChunkFits(chunks[..k]);
      }
    }
  }

  /** The k-th chunk ends where `position` bytes of the stream have been delivered. */
  predicate EndsAt(chunks: seq<Bytes>, k: nat, position: nat) {
    1 <= k <= |chunks| && |Concat(chunks[..k])| == position
  }

  ghost predicate SomeChunkEndsAt(chunks: seq<Bytes>, position: nat) {
    exists k :: EndsAt(chunks, k, position)
  }

  /** A first chunk too short for a header fires at once, on an empty buffer, and never again. */
  lemma ShortFirstChunkFires(events: seq<Event>, c: ConnId, signed: bool)
    requires NonEmpty(ChunksOf(events, c))
    requires ChunksOf(events, c) != [] && |ChunksOf(events, c)[0]| < 4
    ensures RequestsOf(Serve(events, signed).requests, c) == [[]]
    ensures BufferOf(Serve(events, signed), c) == Concat(ChunksOf(events, c)[1..])
  {
    var chunks := ChunksOf(events, c);
    ServeIsPerConnection(events, c, signed);
    AtMostOneRequest(chunks, signed);
    RequestIffDue(chunks, signed);
    assert |Body(chunks[..1])| == 0;
    assert Due(chunks, 1, signed);
  }

  // ----- The client -----

  /** `notified`: how often the waiting call has been woken. */
  datatype Client = Client(readBytes: nat, readBuffer: Bytes, notified: nat)

  const NO_REPLY := Client(0, [], 0)

  function OnReply(k: Client, buf: Bytes, signed: bool): Client {
    if k.readBytes == 0 then
      if |buf| < 4 then k
      else k.(readBytes := Declared(buf, signed), readBuffer := k.readBuffer + buf[4..])
    else
      var buffer := k.readBuffer + buf;
      Client(k.readBytes, buffer, if |buffer| == k.readBytes then k.notified + 1 else k.notified)
  }

  function Receive(chunks: seq<Bytes>, signed: bool): Client {
    if chunks == [] then NO_REPLY
    else OnReply(Receive(chunks[..|chunks| - 1], signed), chunks[|chunks| - 1], signed)
  }

  /** The condition call() waits for. */
  predicate Complete(k: Client) {
    k.readBytes != 0 && k.readBytes == |k.readBuffer|
  }

  lemma {:induction false} ReceiveIs(chunks: seq<Bytes>, signed: bool)
    requires chunks != [] && |chunks[0]| >= 4 && Declared(chunks[0], signed) > 0
    ensures Receive(chunks, signed).readBytes == Declared(chunks[0], signed)
    ensures Receive(chunks, signed).readBuffer == Body(chunks)
  {
    var n := |chunks| - 1;
    var before := chunks[..n];
    assert chunks == before + [chunks[n]];
    if n > 0 {
      ReceiveIs(before, signed);
      BodySnoc(before, chunks[n]);
    } else {
      FirstChunkFits(chunks);
      assert Receive(before, signed) == NO_REPLY;
      ConcatSnoc([], chunks[0]);
      assert Concat(chunks) == chunks[0] by { assert chunks == [] + [chunks[0]]; assert [] + chunks[0] == chunks[0]; }
    }
  }

  /** Chunks that leave the client without a length: too short for a header, or declaring nothing. */
  predicate NoLength(chunks: seq<Bytes>, signed: bool) {
    forall i | 0 <= i < |chunks| :: |chunks[i]| < 4 || Declared(chunks[i], signed) == 0
  }

  /** What such chunks leave in the buffer: nothing of a short one, all but the header of another. */
  function Leftovers(chunks: seq<Bytes>): Bytes {
    if chunks == [] then []
    else
      var last := chunks[|chunks| - 1];
      Leftovers(chunks[..|chunks| - 1]) + (if |last| < 4 then [] else last[4..])
  }

  lemma {:induction false} NoLengthLeaves(chunks: seq<Bytes>, signed: bool)
    requires NoLength(chunks, signed)
    ensures Receive(chunks, signed) == Client(0, Leftovers(chunks), 0)
  {
    if chunks != [] {
      NoLengthLeaves(chunks[..|chunks| - 1], signed);
    }
  }

  /** The client on any chunks at all: those before the first positive length leave what they leave;
      that length then stands, and everything after its header is appended. */
  lemma {:induction false} ReceiveAny(before: seq<Bytes>, head: Bytes, after: seq<Bytes>, signed: bool)
    requires NoLength(before, signed) && |head| >= 4 && Declared(head, signed) > 0
    ensures var k := Receive(before + [head] + after, signed);
            k.readBytes == Declared(head, signed) && k.readBuffer == Leftovers(before) + head[4..] + Concat(after)
    decreases |after|
  {
    var all := before + [head] + after;
    if after == [] {
      NoLengthLeaves(before, signed);
      assert all[..|all| - 1] == before && all[|all| - 1] == head;
      assert Leftovers(before) + head[4..] + [] == Leftovers(before) + head[4..];
    } else {
      var n := |after| - 1;
      assert all[..|all| - 1] == before + [head] + after[..n];
      ReceiveAny(before, head, after[..n], signed);
      assert Leftovers(before) + head[4..] + (Concat(after[..n]) + after[n]) ==
             (Leftovers(before) + head[4..] + Concat(after[..n])) + after[n];
    }
  }

  /** So chunks under four bytes before the header might as well not have come. */
  lemma {:induction false} ShortChunksDropped(short: seq<Bytes>, chunks: seq<Bytes>, signed: bool)
    requires forall i | 0 <= i < |short| :: |short[i]| < 4
    ensures Receive(short + chunks, signed) == Receive(chunks, signed)
    decreases |short| + |chunks|
  {
    var all := short + chunks;
    if chunks != [] {
      var n := |chunks| - 1;
      assert all[..|all| - 1] == short + chunks[..n];
      ShortChunksDropped(short, chunks[..n], signed);
    } else if short != [] {
      var n := |short| - 1;
      assert all[..|all| - 1] == short[..n] + [];
      ShortChunksDropped(short[..n], [], signed);
    }
  }

  /** For a positive length behind a whole header, the client waits for exactly the states in
      which a server given the same chunks finds its frame complete. */
  lemma ClientAgreesWithServer(events: seq<Event>, c: ConnId, signed: bool)
    requires var chunks := ChunksOf(events, c); chunks != [] && |chunks[0]| >= 4 && Declared(chunks[0], signed) > 0
    ensures var s, k := Serve(events, signed), Receive(ChunksOf(events, c), signed);
            && k.readBuffer == BufferOf(s, c)
            && k.readBytes == LengthOf(s, c)
            && (Complete(k) <==> |BufferOf(s, c)| == LengthOf(s, c))
  {
    ServeIsPerConnection(events, c, signed);
    ReceiveIs(ChunksOf(events, c), signed);
  }

  /** On a first chunk alone the two conditions differ exactly when the header is incomplete, or
      declares an empty frame and nothing follows it: the server fires, the client waits on. */
  lemma FirstChunkAgreesIff(chunk: Bytes, c: ConnId, signed: bool)
    ensures var s, k := OnMessage(NO_MESSAGES, c, chunk, signed), OnReply(NO_REPLY, chunk, signed);
            (Complete(k) <==> |BufferOf(s, c)| == LengthOf(s, c))
            <==> |chunk| >= 4 && !(|chunk| == 4 && Declared(chunk, signed) == 0)
  {
  }

  /** The waiting call is notified of a complete frame exactly when the frame's last byte comes
      in a later chunk than its header; a frame in one chunk completes without notification. */
  lemma {:induction false} NotifiedIff(chunks: seq<Bytes>, signed: bool)
    requires NonEmpty(chunks)
    requires chunks != [] && |chunks[0]| >= 4 && Declared(chunks[0], signed) > 0
    requires Complete(Receive(chunks, signed))
    ensures Receive(chunks, signed).notified == (if |chunks| > 1 then 1 else 0)
  {
    var n := |chunks| - 1;
    var before := chunks[..n];
    assert chunks == before + [chunks[n]];
    if n > 0 {
      ReceiveIs(before, signed);
      ReceiveIs(chunks, signed);
      BodySnoc(before, chunks[n]);
      NotNotifiedBefore(before, signed);
    } else {
      assert before == [];
    }
  }

  lemma {:induction false} NotNotifiedBefore(chunks: seq<Bytes>, signed: bool)
    requires NonEmpty(chunks)
    requires chunks != [] && |chunks[0]| >= 4 && Declared(chunks[0], signed) > 0
    requires |Body(chunks)| < Declared(chunks[0], signed)
    ensures Receive(chunks, signed).notified == 0
  {
    var n := |chunks| - 1;
    var before := chunks[..n];
    assert chunks == before + [chunks[n]];
    if n > 0 {
      BodySnoc(before, chunks[n]);
      ReceiveIs(before, signed);
      NotNotifiedBefore(before, signed);
    } else {
      assert before == [];
    }
  }
}
