/** What one call or one dispatch brings about: the messages that reach the stream, the buffered
    bytes that reach the wire, and the half-close that was asked for. */
module ConnectionEffects {
  import opened Common
  import opened Channels
  import opened Connections
  import opened ConnectionStream
  import opened ConnectionClose

  // ----- User code on the loop's thread -----

  /** The messages user code sends, up to its first shutdown. */
  function MessagesOf(acts: seq<Act>): Bytes {
    if acts == [] then []
    else match acts[0]
      case ActSend(msg, _) => msg + MessagesOf(acts[1..])
      case ActSendChars(mem, len, _) => if len <= |mem| then mem[..len] + MessagesOf(acts[1..]) else []
      case ActShutdown => []
  }

  predicate ShutsDown(acts: seq<Act>) {
    exists act | act in acts :: act.ActShutdown?
  }

  lemma ShutsDownLater(acts: seq<Act>)
    requires acts != []
    ensures ShutsDown(acts) <==> acts[0].ActShutdown? || ShutsDown(acts[1..])
  {
    assert acts == [acts[0]] + acts[1..];
  }

  /** One send on the loop's thread: the message is accepted; over an idle output as much of it as
      write() takes is on the wire at once, and otherwise all of it waits behind what is buffered. */
  lemma SendReaches(c: Conn, msg: Bytes, written: int)
    requires Inv(c) && !c.broken && c.state == Connected
    ensures var d, n := Step(c, OpLocal([ActSend(msg, written)])), if c.out != [] || written < 0 then 0 else Min(written, |msg|);
            && d.accepted == c.accepted + msg
            && d.wire == c.wire + msg[..n]
            && d.out == c.out + msg[n..]
            && d.state == Connected && d.queue == c.queue && !d.broken
  {
    PerformsOne(c, ActSend(msg, written));
  }

  lemma PerformsOne(c: Conn, act: Act)
    requires !c.broken
    ensures PerformAll(c, [act]) == Perform(c, act)
  {
    assert [act][1..] == [];
    assert PerformAll(Perform(c, act), []) == Perform(c, act);
  }

  /** What a list of calls brings about on a connected connection: every message up to the first
      shutdown is accepted, and goes to the buffer alone if the output was not idle. */
  ghost predicate Performed(c: Conn, acts: seq<Act>, d: Conn) {
    && !d.broken && d.queue == c.queue
    && d.accepted == c.accepted + MessagesOf(acts)
    && (c.out != [] ==> d.wire == c.wire && d.out == c.out + MessagesOf(acts))
    && d.state == (if ShutsDown(acts) then Disconnecting else Connected)
    && d.halfCloses == c.halfCloses + Bit(ShutsDown(acts) && d.out == [])
  }

  lemma SendPerforms(c: Conn, msg: Bytes, written: int)
    requires Inv(c) && !c.broken && c.state == Connected
    ensures var d := SendInLoop(c, msg, written);
            && Inv(d) && !d.broken && d.state == Connected && d.queue == c.queue && d.halfCloses == c.halfCloses
            && d.accepted == c.accepted + msg
            && (c.out != [] ==> d.wire == c.wire && d.out == c.out + msg)
  {
    SendInLoopKeeps(c, msg, written);
  }

  lemma {:induction false} ActsPerform(c: Conn, acts: seq<Act>)
    requires Inv(c) && !c.broken && c.state == Connected && ActsSafe(c, acts)
    ensures Performed(c, acts, PerformAll(c, acts))
    decreases acts
  {
    if acts != [] {
      ShutsDownLater(acts);
      match acts[0] {
        case ActSend(msg, written) =>
          SendPerforms(c, msg, written);
          MessagePerforms(c, acts, msg);
        case ActSendChars(mem, len, written) =>
          SendCharsKeeps(c, mem, len, written);
          SendPerforms(c, mem[..len], written);
          MessagePerforms(c, acts, mem[..len]);
        case ActShutdown =>
          PerformAllIdle(Perform(c, acts[0]), acts[1..]);
      }
    }
  }

  lemma {:induction false} MessagePerforms(c: Conn, acts: seq<Act>, msg: Bytes)
    requires acts != [] && !acts[0].ActShutdown? && ActsSafe(c, acts) && !c.broken
    requires MessagesOf(acts) == msg + MessagesOf(acts[1..]) && (ShutsDown(acts) <==> ShutsDown(acts[1..]))
    requires var d := Perform(c, acts[0]);
             && Inv(d) && !d.broken && d.state == Connected && d.queue == c.queue && d.halfCloses == c.halfCloses
             && d.accepted == c.accepted + msg
             && (c.out != [] ==> d.wire == c.wire && d.out == c.out + msg)
    ensures Performed(c, acts, PerformAll(c, acts))
    decreases acts, 0
  {
    var d := Perform(c, acts[0]);
    ActsPerform(d, acts[1..]);
    assert c.accepted + msg + MessagesOf(acts[1..]) == c.accepted + MessagesOf(acts);
    assert c.out + msg + MessagesOf(acts[1..]) == c.out + MessagesOf(acts);
  }

  // ----- One dispatch -----

  /** What the message callback sends in this dispatch. */
  function Sent(c: Conn, ev: Revents, r: ReadResult): Bytes {
    if (ev.pollin || ev.pri || ev.hup) && r.Received? && c.state == Connected then MessagesOf(r.acts) else []
  }

  /** A dispatch that does not close runs the message callback, whose messages are accepted. */
  lemma DispatchReads(c: Conn, ev: Revents, r: ReadResult, written: int)
    requires Inv(c) && !c.broken && Live(c) && OpSafe(c, OpDispatch(ev, r, written)) && !ev.nval && !ClosesOn(ev, r)
    ensures var d := Step(c, OpDispatch(ev, r, written));
            && d.accepted == c.accepted + Sent(c, ev, r) && !d.broken
            && d.state == (if (ev.pollin || ev.pri || ev.hup) && r.Received? && c.state == Connected && ShutsDown(r.acts)
                           then Disconnecting else c.state)
  {
    ReadPerforms(c, ev, r);
    var c2 := AfterRead(c, ev, r);
    assert Dispatch(c, ev, r, written) == if ev.pollout then HandleWrite(c2, written) else c2;
  }

  /** Up to the write callback. */
  function AfterRead(c: Conn, ev: Revents, r: ReadResult): Conn {
    if ev.pollin || ev.pri || ev.hup then HandleRead(c, r) else c
  }

  lemma ReadPerforms(c: Conn, ev: Revents, r: ReadResult)
    requires Inv(c) && !c.broken && Live(c) && !ClosesOn(ev, r)
    requires r.Received? ==> ActsSafe(c, r.acts)
    ensures var d := AfterRead(c, ev, r);
            && Inv(d) && !d.broken && Live(d)
            && d.accepted == c.accepted + Sent(c, ev, r)
            && (c.out != [] ==> d.wire == c.wire && d.out == c.out + Sent(c, ev, r))
            && d.state == (if (ev.pollin || ev.pri || ev.hup) && r.Received? && c.state == Connected && ShutsDown(r.acts)
                           then Disconnecting else c.state)
            && (c.state == Disconnecting ==> d == c)
  {
    assert c.accepted + [] == c.accepted && c.out + [] == c.out;
    if r.Received? {
      PerformAllKeeps(c, r.acts);
      if c.state == Connected { ActsPerform(c, r.acts); } else { PerformAllIdle(c, r.acts); }
    }
  }

  /** On POLLOUT, and only then, a dispatch that does not close writes: of everything buffered, what
      the message callback has just added included, the wire gets as much as write() takes, from the
      front, and the rest stays. Write interest goes when nothing is left, and a half-close that was
      waiting comes with it. */
  lemma DispatchWrites(c: Conn, ev: Revents, r: ReadResult, written: int)
    requires Inv(c) && !c.broken && Live(c) && c.out != []
    requires OpSafe(c, OpDispatch(ev, r, written)) && !ev.nval && !ClosesOn(ev, r)
    ensures var d, all := Step(c, OpDispatch(ev, r, written)), c.out + Sent(c, ev, r);
            var n := if !ev.pollout || written < 0 then 0 else Min(written, |all|);
            && d.wire == c.wire + all[..n]
            && d.out == all[n..]
            && d.events.read && (d.events.write <==> d.out != [])
            && (c.state == Disconnecting ==> d.halfCloses == c.halfCloses + Bit(d.out == []))
  {
    ReadPerforms(c, ev, r);
    var c2 := AfterRead(c, ev, r);
    assert Dispatch(c, ev, r, written) == if ev.pollout then HandleWrite(c2, written) else c2;
    if ev.pollout {
      HandleWriteKeeps(c2, written);
      WriteTakes(c2, written);
    } else {
      assert c.wire + [] == c.wire;
    }
  }

  lemma WriteTakes(c: Conn, written: int)
    requires Inv(c) && !c.broken && Live(c) && c.out != []
    ensures var d, n := HandleWrite(c, written), Taken(|c.out|, written);
            && d.wire == c.wire + c.out[..n] && d.out == c.out[n..] && Live(d) && !d.broken
            && d.halfCloses == c.halfCloses + Bit(d.out == [] && c.state == Disconnecting)
  {
    assert c.out[..0] == [] && c.out[0..] == c.out && c.wire + [] == c.wire;
  }

  // ----- Asking for a half-close -----

  /** A shutdown takes effect on state_ at once, whoever asks; on the loop's thread an empty buffer is
      half-closed at once, and another thread's half-close is queued. */
  lemma ShutdownAsks(c: Conn)
    requires Inv(c) && !c.broken && c.state == Connected
    ensures var d := Step(c, OpLocal([ActShutdown]));
            d.state == Disconnecting && d.halfCloses == Bit(c.out == []) && d.queue == c.queue
    ensures var d := Step(c, OpPostShutdown);
            d.state == Disconnecting && d.halfCloses == 0 && d.queue == c.queue + [ShutdownTask]
  {
    PerformsOne(c, ActShutdown);
  }

  /** Its functor, when it runs, half-closes an empty buffer, and leaves a full one to the writes. */
  lemma QueuedShutdownRuns(c: Conn, written: int)
    requires Inv(c) && !c.broken && Live(c) && c.queue != [] && c.queue[0] == ShutdownTask
    ensures var d := Step(c, OpRunTask(written));
            d.halfCloses == c.halfCloses + Bit(c.out == []) && d.queue == c.queue[1..] && d.wire == c.wire
  {
  }

  /** A queued send is carried out when its functor runs, as a send on the loop's thread is. */
  lemma QueuedSendRuns(c: Conn, written: int)
    requires Inv(c) && !c.broken && Live(c) && c.queue != [] && c.queue[0].SendTask?
    ensures var msg := c.queue[0].msg;
            var d, n := Step(c, OpRunTask(written)), if c.out != [] || written < 0 then 0 else Min(written, |msg|);
            && d.accepted == c.accepted + msg && d.queue == c.queue[1..] && !d.broken
            && d.wire == c.wire + msg[..n] && d.out == c.out + msg[n..]
  {
  }

  /** The connection callback's own calls are carried out. */
  lemma EstablishPerforms(acts: seq<Act>)
    requires OpSafe(FRESH, OpEstablish(acts))
    ensures var d := Step(FRESH, OpEstablish(acts));
            && d.accepted == MessagesOf(acts) && d.events.read && !d.broken
            && d.state == (if ShutsDown(acts) then Disconnecting else Connected)
  {
    var c := SetEvents(FRESH.(state := Connected), FRESH.events.(read := true));
    ActsPerform(c, acts);
    PerformAllKeeps(c, acts);
    assert [] + MessagesOf(acts) == MessagesOf(acts);
  }

  // ----- Draining -----

  /** poll reports the socket writable, among anything that does not close the connection, and
      write() takes at least a byte. */
  predicate Writable(op: Op) {
    op.OpDispatch? && op.ev.pollout && !op.ev.nval && !ClosesOn(op.ev, op.read) && op.written > 0
  }

  /** Every half-close that was asked for comes: writable dispatches drain the buffer, strictly, and
      the one that empties it shuts down, once. */
  lemma {:induction false} DrainHalfCloses(c: Conn, ops: seq<Op>)
    requires Inv(c) && !c.broken && c.state == Disconnecting && c.out != []
    requires forall op | op in ops :: Writable(op)
    ensures var d := Run(c, ops);
            && Inv(d) && !d.broken && d.state == Disconnecting
            && d.wire + d.out == d.accepted == c.accepted
            && (d.out == [] || |d.out| <= |c.out| - |ops|)
            && d.halfCloses == c.halfCloses + Bit(d.out == [])
    decreases ops
  {
    if ops != [] {
      assert ops[0] in ops;
      WritableStep(c, ops[0]);
      var c1 := Step(c, ops[0]);
      if c1.out != [] {
        DrainHalfCloses(c1, ops[1..]);
      } else {
        DrainedStays(c1, ops[1..]);
      }
    }
  }

  lemma WritableStep(c: Conn, op: Op)
    requires Inv(c) && !c.broken && c.state == Disconnecting && c.out != [] && Writable(op)
    ensures var d := Step(c, op);
            && Inv(d) && !d.broken && d.state == Disconnecting && d.accepted == c.accepted
            && |d.out| < |c.out| && d.halfCloses == c.halfCloses + Bit(d.out == [])
  {
    OpenIsSafe(c, op);
    StepKeeps(c, op);
    DispatchReads(c, op.ev, op.read, op.written);
    DispatchWrites(c, op.ev, op.read, op.written);
    assert c.out + [] == c.out && c.accepted + [] == c.accepted;
  }

  /** User code can send nothing once a shutdown has been asked for. */
  lemma OpenIsSafe(c: Conn, op: Op)
    requires c.state == Disconnecting && Writable(op)
    ensures OpSafe(c, op)
  {
    if op.read.Received? { IdleActsAreSafe(c, op.read.acts); }
  }

  lemma {:induction false} IdleActsAreSafe(c: Conn, acts: seq<Act>)
    requires c.state == Disconnecting
    ensures ActsSafe(c, acts)
    decreases acts
  {
    if acts != [] && !c.broken { IdleActsAreSafe(c, acts[1..]); }
  }

  lemma {:induction false} DrainedStays(c: Conn, ops: seq<Op>)
    requires Inv(c) && c.state == Disconnecting && c.out == []
    requires forall op | op in ops :: Writable(op)
    ensures Run(c, ops) == c
    decreases ops
  {
    if ops != [] {
      assert ops[0] in ops;
      if ops[0].read.Received? { PerformAllIdle(c, ops[0].read.acts); }
      DrainedStays(c, ops[1..]);
    }
  }

  /** So as many of them as there are bytes are enough. */
  lemma DrainedInTime(c: Conn, ops: seq<Op>)
    requires Inv(c) && !c.broken && c.state == Disconnecting && c.out != [] && |ops| >= |c.out|
    requires forall op | op in ops :: Writable(op)
    ensures Run(c, ops).wire == c.accepted && Run(c, ops).halfCloses == c.halfCloses + 1
  {
    DrainHalfCloses(c, ops);
    assert Run(c, ops).wire + [] == Run(c, ops).wire;
  }
}
