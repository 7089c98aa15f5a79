/** One call across the wire: a frame sent through a connection, whatever write() takes at a
    time, and reassembled by the server, whatever read() delivers at a time. */
module EndToEnd {
  import opened Common
  import opened Channels
  import opened Connections
  import opened ConnectionStream
  import ConnectionClose
  import E = ConnectionEffects
  import F = Framing

  predicate HeaderIsReadable(size: nat, signed: bool) {
    size < F.TWO32 && (!signed || (!F.HasBit(size, 7) && !F.HasBit(size, 15) && !F.HasBit(size, 23)))
  }

  lemma DeclaredByHeader(buf: Bytes, payload: Bytes, signed: bool)
    requires |buf| >= 4 && buf[..4] == F.Header(|payload|)
    requires HeaderIsReadable(|payload|, signed)
    ensures F.Declared(buf, signed) == |payload|
  {
    F.HeaderRoundTrip(|payload|, signed);
    var h := F.Header(|payload|);
    assert buf[0] == buf[..4][0] && buf[1] == buf[..4][1] && buf[2] == buf[..4][2] && buf[3] == buf[..4][3];
    assert F.Declared(buf, signed) == F.Declared(h, signed);
  }

  /** Chunks that deliver a prefix of the frame have a boundary at its end exactly when they
      deliver all of it. */
  lemma EndsOnlyWhole(chunks: seq<Bytes>, size: nat)
    requires chunks != [] && |Concat(chunks)| <= size
    ensures F.SomeChunkEndsAt(chunks, size) <==> |Concat(chunks)| == size
  {
    if |Concat(chunks)| == size {
      assert chunks[..|chunks|] == chunks;
      assert F.EndsAt(chunks, |chunks|, size);
    }
    forall k: nat | F.EndsAt(chunks, k, size)
      ensures |Concat(chunks)| == size
    {
      ConcatSplit(chunks, k);
    }
  }

  /** The receiving half: any part of a frame, delivered in non-empty chunks of which the first
      holds the header, among the chunks of any other connections. */
  lemma FrameReceived(payload: Bytes, events: seq<F.Event>, id: F.ConnId, signed: bool)
    requires HeaderIsReadable(|payload|, signed)
    requires Delivered(F.ChunksOf(events, id), F.Header(|payload|) + payload)
    ensures var s, chunks := F.Serve(events, signed), F.ChunksOf(events, id);
            && 4 <= |Concat(chunks)| <= 4 + |payload|
            && F.BufferOf(s, id) == payload[..|Concat(chunks)| - 4]
            && F.RequestsOf(s.requests, id) == (if |Concat(chunks)| == 4 + |payload| then [payload] else [])
  {
    var chunks := F.ChunksOf(events, id);
    PartOfFrame(chunks, payload);
    DeclaredByHeader(chunks[0], payload, signed);
    F.Reassembly(events, id, signed);
    EndsOnlyWhole(chunks, 4 + |payload|);
  }

  lemma PartOfFrame(chunks: seq<Bytes>, payload: Bytes)
    requires Delivered(chunks, F.Header(|payload|) + payload)
    ensures chunks[0][..4] == F.Header(|payload|)
    ensures 4 <= |Concat(chunks)| <= 4 + |payload|
    ensures Concat(chunks)[4..] == payload[..|Concat(chunks)| - 4]
    ensures |Concat(chunks)| == 4 + |payload| ==> Concat(chunks)[4..4 + |payload|] == payload
  {
    var stream, frame := Concat(chunks), F.Header(|payload|) + payload;
    F.FirstChunkFits(chunks);
    assert stream == frame[..|stream|];
    assert chunks[0][..4] == stream[..4];
  }

  predicate Delivered(chunks: seq<Bytes>, frame: Bytes) {
    F.NonEmpty(chunks) && chunks != [] && |chunks[0]| >= 4 && Concat(chunks) <= frame
  }

  /** Both halves: the sender has accepted one frame, or part of it, and any prefix of what has
      reached the wire has been delivered. The server has buffered that much of the payload, and has handled the
      request, once and with exactly the payload, if and only if all of it came. */
  lemma FrameArrives(ops: seq<Op>, payload: Bytes, events: seq<F.Event>, id: F.ConnId, signed: bool)
    requires RunSafe(FRESH, ops)
    requires Run(FRESH, ops).accepted <= F.Header(|payload|) + payload
    requires HeaderIsReadable(|payload|, signed)
    requires Delivered(F.ChunksOf(events, id), Run(FRESH, ops).wire)
    ensures var s, chunks := F.Serve(events, signed), F.ChunksOf(events, id);
            && 4 <= |Concat(chunks)| <= 4 + |payload|
            && F.BufferOf(s, id) == payload[..|Concat(chunks)| - 4]
            && F.RequestsOf(s.requests, id) == (if |Concat(chunks)| == 4 + |payload| then [payload] else [])
  {
    RunConserves(FRESH, ops);
    assert Run(FRESH, ops).wire <= Run(FRESH, ops).accepted;
    FrameReceived(payload, events, id, signed);
  }

  // ----- How a frame is sent -----

  predicate OnlyShutdowns(acts: seq<Act>) {
    forall act | act in acts :: act.ActShutdown?
  }

  /** The step neither accepts nor queues a message that was not queued before. */
  predicate SendsNothing(op: Op) {
    match op
    case OpEstablish(acts) => OnlyShutdowns(acts)
    case OpDispatch(_, r, _) => r.Received? ==> OnlyShutdowns(r.acts)
    case OpLocal(acts) => OnlyShutdowns(acts)
    case OpPostSend(_) => false
    case OpPostSendChars(_, _) => false
    case _ => true
  }

  predicate SendNothing(ops: seq<Op>) {
    forall op | op in ops :: SendsNothing(op)
  }

  /** The bytes that queued functors will hand to sendInLoop. */
  function QueuedBytes(queue: seq<Task>): Bytes {
    if queue == [] then []
    else QueuedBytes(queue[..|queue| - 1]) + BytesOf(queue[|queue| - 1])
  }

  function BytesOf(t: Task): Bytes {
    match t
    case SendTask(msg) => msg
    case SendCharsTask(mem, len) => if len <= |mem| then mem[..len] else []
    case ShutdownTask => []
  }

  /** Every message accepted or still queued, in order. */
  function Promised(c: Conn): Bytes {
    c.accepted + QueuedBytes(c.queue)
  }

  lemma QueuedSnoc(queue: seq<Task>, t: Task)
    ensures QueuedBytes(queue + [t]) == QueuedBytes(queue) + BytesOf(t)
  {
    assert (queue + [t])[..|queue|] == queue;
  }

  lemma {:induction false} QueuedHead(queue: seq<Task>)
    requires queue != []
    ensures QueuedBytes(queue) == BytesOf(queue[0]) + QueuedBytes(queue[1..])
  {
    var n := |queue| - 1;
    if n == 0 {
      assert queue[..0] == [] && queue[1..] == [];
    } else {
      QueuedHead(queue[..n]);
      assert queue[1..] == queue[..n][1..] + [queue[n]];
      QueuedSnoc(queue[..n][1..], queue[n]);
      Associate(BytesOf(queue[0]), QueuedBytes(queue[..n][1..]), BytesOf(queue[n]));
    }
  }

  lemma {:induction false} ShutdownsAcceptNothing(c: Conn, acts: seq<Act>)
    requires OnlyShutdowns(acts)
    ensures PerformAll(c, acts).accepted == c.accepted
    ensures PerformAll(c, acts).queue == c.queue
    decreases acts
  {
    if acts != [] && !c.broken {
      assert acts[0] in acts;
      ShutdownsAcceptNothing(Perform(c, acts[0]), acts[1..]);
    }
  }

  lemma DispatchAcceptsNothing(c: Conn, ev: Revents, r: ReadResult, written: int)
    requires SendsNothing(OpDispatch(ev, r, written))
    ensures Dispatch(c, ev, r, written).accepted == c.accepted && Dispatch(c, ev, r, written).queue == c.queue
  {
    if r.Received? {
      ShutdownsAcceptNothing(if ev.hup && !ev.pollin then HandleClose(c) else c, r.acts);
    }
  }

  lemma RunTaskAccepts(c: Conn, written: int)
    requires c.queue != []
    ensures RunTask(c, written).accepted == c.accepted + BytesOf(c.queue[0])
    ensures RunTask(c, written).queue == c.queue[1..]
  {
    assert c.accepted + [] == c.accepted;
  }

  lemma RunTaskPromises(c: Conn, written: int)
    ensures Promised(RunTask(c, written)) == Promised(c)
  {
    if c.queue != [] {
      QueuedHead(c.queue);
      RunTaskAccepts(c, written);
      Associate(c.accepted, BytesOf(c.queue[0]), QueuedBytes(c.queue[1..]));
    }
  }

  lemma Associate(a: Bytes, b: Bytes, c: Bytes)
    ensures a + (b + c) == a + b + c
  {
  }

  lemma StepPromises(c: Conn, op: Op)
    requires SendsNothing(op)
    ensures Promised(Step(c, op)) == Promised(c)
  {
    match op {
      case OpEstablish(acts) =>
        ShutdownsAcceptNothing(SetEvents(c.(state := Connected), c.events.(read := true)), acts);
      case OpDispatch(ev, r, written) => DispatchAcceptsNothing(c, ev, r, written);
      case OpLocal(acts) => ShutdownsAcceptNothing(c, acts);
      case OpRunTask(written) => RunTaskPromises(c, written);
      case OpPostShutdown => QueuedSnoc(c.queue, ShutdownTask);
      case _ =>
    }
  }

  lemma {:induction false} RunPromises(c: Conn, ops: seq<Op>)
    requires SendNothing(ops)
    ensures Promised(Run(c, ops)) == Promised(c)
    decreases ops
  {
    if ops != [] {
      assert ops[0] in ops;
      StepPromises(c, ops[0]);
      RunPromises(Step(c, ops[0]), ops[1..]);
    }
  }

  lemma PostPromises(c: Conn, op: Op)
    requires op.OpPostSend? || op.OpPostSendChars?
    ensures Promised(Step(c, op)) ==
            if c.broken || c.state != Connected then Promised(c)
            else Promised(c) + BytesOf(if op.OpPostSend? then SendTask(op.msg) else SendCharsTask(op.mem, op.len))
  {
    if !c.broken && c.state == Connected {
      var t := if op.OpPostSend? then SendTask(op.msg) else SendCharsTask(op.mem, op.len);
      QueuedSnoc(c.queue, t);
      assert c.accepted + (QueuedBytes(c.queue) + BytesOf(t)) == (c.accepted + QueuedBytes(c.queue)) + BytesOf(t);
    }
  }

  predicate Past(c: Conn) {
    c.broken || c.state == Disconnecting || c.state == Disconnected
  }

  lemma ActsStayPast(c: Conn, acts: seq<Act>)
    ensures Past(c) ==> Past(PerformAll(c, acts))
    ensures c.state != Connecting ==> PerformAll(c, acts).state != Connecting
  {
    if c.state != Connecting { PerformAllStays(c, acts); }
    if c.state != Connected { ConnectionClose.PerformAllIdle(c, acts); }
  }

  lemma DispatchStaysPast(c: Conn, ev: Revents, r: ReadResult, written: int)
    ensures Past(c) ==> Past(Dispatch(c, ev, r, written))
    ensures c.state != Connecting ==> Dispatch(c, ev, r, written).state != Connecting
  {
    if r.Received? { ActsStayPast(if ev.hup && !ev.pollin then HandleClose(c) else c, r.acts); }
  }

  lemma StepStaysPast(c: Conn, op: Op)
    ensures Past(c) ==> Past(Step(c, op))
    ensures c.state != Connecting ==> Step(c, op).state != Connecting
  {
    match op {
      case OpDispatch(ev, r, written) => DispatchStaysPast(c, ev, r, written);
      case OpLocal(acts) => ActsStayPast(c, acts);
      case _ =>
    }
  }

  lemma {:induction false} RunStaysPast(c: Conn, ops: seq<Op>)
    ensures Past(c) ==> Past(Run(c, ops))
    ensures c.state != Connecting ==> Run(c, ops).state != Connecting
    decreases ops
  {
    if ops != [] {
      StepStaysPast(c, ops[0]);
      RunStaysPast(Step(c, ops[0]), ops[1..]);
    }
  }

  /** One more operation, and then some that send nothing. */
  lemma RunThrough(c: Conn, op: Op, ops: seq<Op>)
    requires SendNothing(ops)
    ensures Run(c, [op] + ops) == Run(Step(c, op), ops)
    ensures Promised(Run(c, [op] + ops)) == Promised(Step(c, op))
    ensures Past(c) ==> Past(Run(c, [op] + ops))
  {
    assert ([op] + ops)[1..] == ops;
    RunPromises(Step(c, op), ops);
    StepStaysPast(c, op);
    RunStaysPast(Step(c, op), ops);
  }

  // ----- A call -----

  /** call() on a thread of its own: the header as four chars, then the payload, each queued for
      the connection's loop; before, between and after them whatever else happens. */
  function CallOps(mem: Bytes, payload: Bytes, before: seq<Op>, between: seq<Op>, after: seq<Op>): seq<Op> {
    before + ([OpPostSendChars(mem, 4)] + between) + ([OpPostSend(payload)] + after)
  }

  /** A post and whatever follows it: the message is promised exactly when the connection is up. */
  lemma PostThrough(c: Conn, op: Op, after: seq<Op>)
    requires (op.OpPostSend? || op.OpPostSendChars?) && SendNothing(after) && c.state != Connecting
    ensures var d := Run(c, [op] + after);
            && d.state != Connecting
            && (Past(c) ==> Past(d) && Promised(d) == Promised(c))
            && (!Past(c) ==> Promised(d) == Promised(c) + BytesOf(if op.OpPostSend? then SendTask(op.msg) else SendCharsTask(op.mem, op.len)))
  {
    PostPromises(c, op);
    RunThrough(c, op, after);
    StepStaysPast(c, op);
    RunStaysPast(Step(c, op), after);
  }

  lemma CallPromises(mem: Bytes, payload: Bytes, before: seq<Op>, between: seq<Op>, after: seq<Op>)
    requires |mem| >= 4 && SendNothing(before) && SendNothing(between) && SendNothing(after)
    requires Run(FRESH, before).state != Connecting
    ensures var c := Run(FRESH, CallOps(mem, payload, before, between, after));
            && Promised(c) <= mem[..4] + payload
            && (!c.broken && Run(FRESH, before + ([OpPostSendChars(mem, 4)] + between)).state == Connected ==>
                  Promised(c) == mem[..4] + payload)
  {
    var c0 := Run(FRESH, before);
    var c1 := Run(c0, [OpPostSendChars(mem, 4)] + between);
    ConnectionClose.RunConcat(FRESH, before, [OpPostSendChars(mem, 4)] + between);
    ConnectionClose.RunConcat(FRESH, before + ([OpPostSendChars(mem, 4)] + between), [OpPostSend(payload)] + after);
    RunPromises(FRESH, before);
    BothPosts(c0, c1, mem, payload, between, after);
  }

  lemma BothPosts(c0: Conn, c1: Conn, mem: Bytes, payload: Bytes, between: seq<Op>, after: seq<Op>)
    requires |mem| >= 4 && SendNothing(between) && SendNothing(after)
    requires c0.state != Connecting && Promised(c0) == [] && c1 == Run(c0, [OpPostSendChars(mem, 4)] + between)
    ensures var c := Run(c1, [OpPostSend(payload)] + after);
            && Promised(c) <= mem[..4] + payload
            && (!c.broken && c1.state == Connected ==> Promised(c) == mem[..4] + payload)
  {
    PostThrough(c0, OpPostSendChars(mem, 4), between);
    PostThrough(c1, OpPostSend(payload), after);
    assert [] + mem[..4] == mem[..4];
    if c1.broken { BrokenStays(c1, [OpPostSend(payload)] + after); }
  }

  lemma {:induction false} BrokenStays(c: Conn, ops: seq<Op>)
    requires c.broken
    ensures Run(c, ops) == c
    decreases ops
  {
    if ops != [] { BrokenStays(c, ops[1..]); }
  }

  /** From the call to the request: for every result of every write but the header's, which is
      taken whole or was never a partial one, and whatever else happens on the connection that is
      not another send, half-closes and closes included. The server holds a prefix of the payload
      and handles the request, once and with exactly the payload, if and only if all of it came;
      and unless the connection closed first, all of it is sent. */
  lemma CallArrives(mem: Bytes, payload: Bytes, before: seq<Op>, between: seq<Op>, after: seq<Op>,
                    events: seq<F.Event>, id: F.ConnId, signed: bool)
    requires |mem| >= 4 && mem[..4] == F.Header(|payload|) && HeaderIsReadable(|payload|, signed)
    requires SendNothing(before) && SendNothing(between) && SendNothing(after)
    requires Run(FRESH, before).state != Connecting
    requires RunSafe(FRESH, CallOps(mem, payload, before, between, after))
    requires Delivered(F.ChunksOf(events, id), Run(FRESH, CallOps(mem, payload, before, between, after)).wire)
    ensures var s, chunks := F.Serve(events, signed), F.ChunksOf(events, id);
            && 4 <= |Concat(chunks)| <= 4 + |payload|
            && F.BufferOf(s, id) == payload[..|Concat(chunks)| - 4]
            && F.RequestsOf(s.requests, id) == (if |Concat(chunks)| == 4 + |payload| then [payload] else [])
    ensures var c := Run(FRESH, CallOps(mem, payload, before, between, after));
            && c.wire + c.out == c.accepted <= F.Header(|payload|) + payload
            && (!c.broken && Run(FRESH, before + ([OpPostSendChars(mem, 4)] + between)).state == Connected && c.queue == [] ==>
                  c.wire + c.out == F.Header(|payload|) + payload)
  {
    var ops := CallOps(mem, payload, before, between, after);
    CallPromises(mem, payload, before, between, after);
    RunConserves(FRESH, ops);
    FrameArrives(ops, payload, events, id, signed);
    var c := Run(FRESH, ops);
    assert c.queue == [] ==> Promised(c) == c.accepted + [] == c.accepted;
  }

  // ----- A reply -----

  /** send_result() inside a message callback, on the connection's own loop. */
  function Reply(ev: Revents, mem: Bytes, payload: Bytes, taken: int, written: int, later: int): Op {
    OpDispatch(ev, Received([ActSendChars(mem, 4, taken), ActSend(payload, written)]), later)
  }

  lemma ReplyActsPromise(c: Conn, mem: Bytes, payload: Bytes, taken: int, written: int)
    requires |mem| >= 4
    ensures var d := PerformAll(c, [ActSendChars(mem, 4, taken), ActSend(payload, written)]);
            && d.queue == c.queue
            && (d.accepted == c.accepted || d.accepted == c.accepted + mem[..4] || d.accepted == c.accepted + mem[..4] + payload)
  {
    var acts := [ActSendChars(mem, 4, taken), ActSend(payload, written)];
    var c1 := Perform(c, acts[0]);
    assert acts[1..] == [acts[1]] && acts[1..][1..] == [];
    assert PerformAll(c1, acts[1..]) == if c1.broken then c1 else Perform(c1, acts[1]);
  }

  lemma ReplyPromises(c: Conn, ev: Revents, mem: Bytes, payload: Bytes, taken: int, written: int, later: int)
    requires |mem| >= 4
    ensures var d := Step(c, Reply(ev, mem, payload, taken, written, later));
            && d.queue == c.queue
            && (d.accepted == c.accepted || d.accepted == c.accepted + mem[..4] || d.accepted == c.accepted + mem[..4] + payload)
  {
    ReplyActsPromise(if ev.hup && !ev.pollin then HandleClose(c) else c, mem, payload, taken, written);
  }

  lemma {:induction false} RunSafeConcat(c: Conn, a: seq<Op>, b: seq<Op>)
    requires RunSafe(c, a + b)
    ensures RunSafe(c, a) && RunSafe(Run(c, a), b)
    decreases a
  {
    if a == [] {
      assert a + b == b;
    } else if c.broken {
      BrokenStays(c, a);
    } else {
      assert (a + b)[0] == a[0] && (a + b)[1..] == a[1..] + b;
      RunSafeConcat(Step(c, a[0]), a[1..], b);
    }
  }

  lemma {:induction false} AcceptedGrows(c: Conn, ops: seq<Op>)
    requires SendNothing(ops)
    ensures c.accepted <= Run(c, ops).accepted
    decreases ops
  {
    if ops != [] {
      assert ops[0] in ops;
      match ops[0] {
        case OpEstablish(acts) =>
          ShutdownsAcceptNothing(SetEvents(c.(state := Connected), c.events.(read := true)), acts);
        case OpDispatch(ev, r, written) => DispatchAcceptsNothing(c, ev, r, written);
        case OpLocal(acts) => ShutdownsAcceptNothing(c, acts);
        case OpRunTask(written) => if c.queue != [] { RunTaskAccepts(c, written); }
        case _ =>
      }
      AcceptedGrows(Step(c, ops[0]), ops[1..]);
    }
  }

  /** The connection is up, and the dispatch delivers the request's bytes and does not close it. */
  predicate Replies(c: Conn, ev: Revents) {
    !c.broken && c.state == Connected && !ev.nval && (ev.pollin || (ev.pri && !ev.hup))
  }

  lemma ReplyIsAccepted(c: Conn, ev: Revents, mem: Bytes, payload: Bytes, taken: int, written: int, later: int)
    requires Inv(c) && Replies(c, ev) && |mem| >= 4 && OpSafe(c, Reply(ev, mem, payload, taken, written, later))
    ensures Step(c, Reply(ev, mem, payload, taken, written, later)).accepted == c.accepted + (mem[..4] + payload)
  {
    var acts := [ActSendChars(mem, 4, taken), ActSend(payload, written)];
    E.DispatchReads(c, ev, Received(acts), later);
    assert acts[1..] == [acts[1]] && acts[1..][1..] == [];
    assert E.MessagesOf(acts[1..]) == payload + [] == payload;
  }

  lemma ReplyIsSent(mem: Bytes, payload: Bytes, before: seq<Op>, after: seq<Op>,
                    ev: Revents, taken: int, written: int, later: int)
    requires |mem| >= 4 && SendNothing(before) && SendNothing(after)
    requires RunSafe(FRESH, before + ([Reply(ev, mem, payload, taken, written, later)] + after))
    requires Replies(Run(FRESH, before), ev)
    ensures mem[..4] + payload <= Run(FRESH, before + ([Reply(ev, mem, payload, taken, written, later)] + after)).accepted
  {
    var reply, c := Reply(ev, mem, payload, taken, written, later), Run(FRESH, before);
    RunSafeConcat(FRESH, before, [reply] + after);
    RunConserves(FRESH, before);
    RunPromises(FRESH, before);
    assert Promised(FRESH) == [] && c.accepted == [];
    ReplyIsAccepted(c, ev, mem, payload, taken, written, later);
    assert c.accepted + (mem[..4] + payload) == mem[..4] + payload;
    AcceptedGrows(Step(c, reply), after);
    assert ([reply] + after)[1..] == after;
    ConnectionClose.RunConcat(FRESH, before, [reply] + after);
  }

  /** From the reply to the waiting call: on the server's loop, for any results of the writes that
      follow a header taken whole. The call's condition holds exactly when the whole reply has
      come, and the buffer it then unpacks is exactly the reply; and on a connection that is up when
      its request comes, all of the reply is sent. */
  lemma ReplyArrives(mem: Bytes, payload: Bytes, before: seq<Op>, after: seq<Op>,
                     ev: Revents, taken: int, written: int, later: int, chunks: seq<Bytes>, signed: bool)
    requires |mem| >= 4 && mem[..4] == F.Header(|payload|) && HeaderIsReadable(|payload|, signed) && payload != []
    requires SendNothing(before) && SendNothing(after)
    requires RunSafe(FRESH, before + ([Reply(ev, mem, payload, taken, written, later)] + after))
    requires Delivered(chunks, Run(FRESH, before + ([Reply(ev, mem, payload, taken, written, later)] + after)).wire)
    ensures var k := F.Receive(chunks, signed);
            && |Concat(chunks)| <= 4 + |payload|
            && (F.Complete(k) <==> |Concat(chunks)| == 4 + |payload|)
            && (F.Complete(k) ==> k.readBuffer == payload)
    ensures var c := Run(FRESH, before + ([Reply(ev, mem, payload, taken, written, later)] + after));
            && c.wire + c.out == c.accepted <= F.Header(|payload|) + payload
            && (Replies(Run(FRESH, before), ev) ==> c.wire + c.out == F.Header(|payload|) + payload)
  {
    var reply := Reply(ev, mem, payload, taken, written, later);
    var ops, c := before + ([reply] + after), Run(FRESH, before);
    ConnectionClose.RunConcat(FRESH, before, [reply] + after);
    RunPromises(FRESH, before);
    ReplyPromises(c, ev, mem, payload, taken, written, later);
    RunThrough(c, reply, after);
    RunConserves(FRESH, ops);
    NothingPromised(c, Step(c, reply), mem[..4], payload);
    assert Run(FRESH, ops).wire <= Run(FRESH, ops).accepted <= Promised(Run(FRESH, ops));
    if Replies(c, ev) { ReplyIsSent(mem, payload, before, after, ev, taken, written, later); }
    ReplyReceived(payload, chunks, signed);
  }

  lemma NothingPromised(c: Conn, d: Conn, header: Bytes, payload: Bytes)
    requires Promised(c) == [] && d.queue == c.queue
    requires d.accepted == c.accepted || d.accepted == c.accepted + header || d.accepted == c.accepted + header + payload
    ensures Promised(d) <= header + payload
  {
    assert c.accepted == [] && QueuedBytes(c.queue) == [];
    assert [] + header == header && Promised(d) == d.accepted + [] == d.accepted;
  }

  lemma ReplyReceived(payload: Bytes, chunks: seq<Bytes>, signed: bool)
    requires HeaderIsReadable(|payload|, signed) && payload != []
    requires Delivered(chunks, F.Header(|payload|) + payload)
    ensures var k := F.Receive(chunks, signed);
            && |Concat(chunks)| <= 4 + |payload|
            && (F.Complete(k) <==> |Concat(chunks)| == 4 + |payload|)
            && (F.Complete(k) ==> k.readBuffer == payload)
  {
    PartOfFrame(chunks, payload);
    DeclaredByHeader(chunks[0], payload, signed);
    F.ReceiveIs(chunks, signed);
    assert F.Body(chunks) == Concat(chunks)[4..];
  }

  // ----- A header that is not taken whole -----

  /** The four bytes that cal_headers allocates hold no terminator after them, so a send of them
      is safe only if its own write takes all four. */
  lemma HeaderSafeIff(mem: Bytes, n: nat)
    requires |mem| == 4 && n <= 4
    ensures CharsSafe(mem, 4, n) <==> n == 4
  {
  }

  /** It happens: two bytes of the header of a five-byte payload are taken. */
  lemma ShortWriteBreaks()
    ensures F.Header(5) == [0, 0, 0, 5]
    ensures Run(FRESH, [OpEstablish([]), OpLocal([ActSendChars(F.Header(5), 4, 2)])]).broken
  {
    var mem: Bytes := F.Header(5);
    var acts := [ActSendChars(mem, 4, 2)];
    ConnectionClose.RunTwo(FRESH, OpEstablish([]), OpLocal(acts));
    var c := Step(FRESH, OpEstablish([]));
    assert CStrLen(mem) == Some(0);
    assert acts[1..] == [];
    assert PerformAll(c, acts) == PerformAll(Perform(c, acts[0]), []);
  }
}
