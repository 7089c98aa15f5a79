/** The output side of a connection is a lossless FIFO byte stream, whoever sends. */
module ConnectionStream {
  import opened Common
  import opened Channels
  import opened Connections

  /** What every reachable state satisfies, other threads included. */
  ghost predicate Inv(c: Conn) {
    && c.wire + c.out == c.accepted
    && (Live(c) ==> c.events.read && (c.events.write <==> c.out != []))
    && (c.state == Connecting ==> c.(broken := false) == FRESH)
    && (c.state == Connected ==> c.halfCloses == 0 && ShutdownTask !in c.queue)
    && (forall t | t in c.queue && t.SendCharsTask? :: t.len <= |t.mem|)
    // A requested half-close is done, waits for the buffer to drain, or is queued.
    && (c.state == Disconnecting && c.out == [] ==> c.halfCloses > 0 || ShutdownTask in c.queue)
  }

  /** The message behind a char pointer is rebuilt correctly after a write that took `n` bytes. */
  predicate CharsSafe(mem: Bytes, len: nat, n: nat) {
    len <= |mem| && (n == len || CStrLen(mem) == Some(len))
  }

  predicate ActSafe(c: Conn, act: Act) {
    act.ActSendChars? && c.state == Connected ==> CharsSafe(act.mem, act.len, TakenDirectly(c, act.len, act.written))
  }

  predicate ActsSafe(c: Conn, acts: seq<Act>)
    decreases acts
  {
    acts == [] || c.broken || (ActSafe(c, acts[0]) && ActsSafe(Perform(c, acts[0]), acts[1..]))
  }

  /** Every char-pointer send in the run is safe at the moment it executes. */
  predicate OpSafe(c: Conn, op: Op) {
    match op
    case OpEstablish(acts) =>
      c.state == Connecting ==> ActsSafe(SetEvents(c.(state := Connected), c.events.(read := true)), acts)
    case OpDispatch(ev, r, written) =>
      r.Received? ==> ActsSafe(if ev.hup && !ev.pollin then HandleClose(c) else c, r.acts)
    case OpLocal(acts) => ActsSafe(c, acts)
    case OpRunTask(written) =>
      c.queue != [] && c.queue[0].SendCharsTask? ==>
        CharsSafe(c.queue[0].mem, c.queue[0].len, TakenDirectly(c, c.queue[0].len, written))
    case OpPostSendChars(mem, len) => len <= |mem|
    case _ => true
  }

  predicate RunSafe(c: Conn, ops: seq<Op>)
    decreases ops
  {
    ops == [] || c.broken || (OpSafe(c, ops[0]) && RunSafe(Step(c, ops[0]), ops[1..]))
  }

  /** The part already sent, the old buffer and the part just buffered line up. */
  lemma Reassociate(wire: Bytes, out: Bytes, sent: Bytes, rest: Bytes)
    requires out == [] || sent == []
    ensures (wire + sent) + (out + rest) == (wire + out) + (sent + rest)
  {
  }

  lemma SendInLoopKeeps(c: Conn, msg: Bytes, written: int)
    requires Inv(c) && c.state != Connecting
    ensures Inv(SendInLoop(c, msg, written))
    ensures SendInLoop(c, msg, written).accepted == c.accepted + msg
  {
    var n := TakenDirectly(c, |msg|, written);
    var d := SendInLoop(c, msg, written);
    assert d.wire == c.wire + msg[..n] && d.accepted == c.accepted + msg;
    assert d.out == c.out + msg[n..];
    assert d.wire + d.out == d.accepted by {
      Reassociate(c.wire, c.out, msg[..n], msg[n..]);
      assert msg[..n] + msg[n..] == msg;
    }
    assert d.state == c.state && d.halfCloses == c.halfCloses && d.queue == c.queue;
    assert d.events.read == c.events.read;
    assert d.out == [] ==> n == |msg| && c.out == [];
  }

  /** sendInLoopChar accepts exactly its message if and only if its own write took all of
      it, or the memory holds a C string of exactly that length. */
  lemma SendCharsExactIff(c: Conn, mem: Bytes, len: nat, written: int)
    requires Inv(c) && Live(c) && !c.broken && len <= |mem|
    ensures var d := SendInLoopChar(c, mem, len, written);
            (!d.broken && d.wire + d.out == c.accepted + mem[..len] && (d.events.write <==> d.out != []))
            <==> CharsSafe(mem, len, TakenDirectly(c, len, written))
  {
    var n := TakenDirectly(c, len, written);
    if CharsSafe(mem, len, n) {
      SendCharsKeeps(c, mem, len, written);
    } else if CStrLen(mem).Some? && n <= CStrLen(mem).value {
      assert |SendInLoopChar(c, mem, len, written).out| == |c.out| + CStrLen(mem).value - n;
      assert |c.accepted| == |c.wire| + |c.out|;
    }
  }

  lemma SendCharsKeeps(c: Conn, mem: Bytes, len: nat, written: int)
    requires Inv(c) && c.state != Connecting
    requires CharsSafe(mem, len, TakenDirectly(c, len, written))
    ensures SendInLoopChar(c, mem, len, written) == SendInLoop(c, mem[..len], written)
    ensures Inv(SendInLoopChar(c, mem, len, written))
  {
    var n := TakenDirectly(c, len, written);
    assert mem[..len][..n] == mem[..n] && mem[..len][n..] == mem[n..len];
    SendInLoopKeeps(c, mem[..len], written);
  }

  lemma {:induction false} PerformAllKeeps(c: Conn, acts: seq<Act>)
    requires Inv(c) && ActsSafe(c, acts)
    ensures Inv(PerformAll(c, acts))
    decreases acts
  {
    if acts != [] && !c.broken {
      match acts[0] {
        case ActSend(msg, written) =>
          if c.state == Connected { SendInLoopKeeps(c, msg, written); }
        case ActSendChars(mem, len, written) =>
          if c.state == Connected { SendCharsKeeps(c, mem, len, written); }
        case ActShutdown =>
      }
      PerformAllKeeps(Perform(c, acts[0]), acts[1..]);
    }
  }

  lemma HandleWriteKeeps(c: Conn, written: int)
    requires Inv(c)
    ensures Inv(HandleWrite(c, written))
  {
    var n := Taken(|c.out|, written);
    assert c.out == c.out[..n] + c.out[n..];
  }

  lemma {:induction false} PerformAllStays(c: Conn, acts: seq<Act>)
    requires c.state != Connecting
    ensures PerformAll(c, acts).state != Connecting
    ensures Live(c) <==> Live(PerformAll(c, acts))
    ensures !Live(c) ==> PerformAll(c, acts) == c
    ensures PerformAll(c, acts).queue == c.queue
    decreases acts
  {
    if acts != [] && !c.broken {
      PerformAllStays(Perform(c, acts[0]), acts[1..]);
    }
  }

  lemma RunTaskKeeps(c: Conn, written: int)
    requires Inv(c) && OpSafe(c, OpRunTask(written))
    ensures Inv(RunTask(c, written))
  {
    if c.queue != [] {
      var c1 := c.(queue := c.queue[1..]);
      var d := RunTask(c, written);
      assert c.queue == [c.queue[0]] + c1.queue;
      match c.queue[0] {
        case SendTask(msg) =>
          assert Inv(c1);
          SendInLoopKeeps(c1, msg, written);
        case SendCharsTask(mem, len) =>
          assert Inv(c1);
          SendCharsKeeps(c1, mem, len, written);
        case ShutdownTask =>
      }
    }
  }

  lemma DispatchKeeps(c: Conn, ev: Revents, r: ReadResult, written: int)
    requires Inv(c) && OpSafe(c, OpDispatch(ev, r, written))
    ensures Inv(Dispatch(c, ev, r, written))
  {
    if !ev.nval {
      var c1 := if ev.hup && !ev.pollin then HandleClose(c) else c;
      HandleCloseKeeps(c);
      if r.Received? { PerformAllKeeps(c1, r.acts); }
      HandleCloseKeeps(c1);
      var c2 := if !c1.broken && (ev.pollin || ev.pri || ev.hup) then HandleRead(c1, r) else c1;
      HandleWriteKeeps(c2, written);
    }
  }

  lemma HandleCloseKeeps(c: Conn)
    requires Inv(c)
    ensures Inv(HandleClose(c))
  {
  }

  lemma StepKeeps(c: Conn, op: Op)
    requires Inv(c) && OpSafe(c, op)
    ensures Inv(Step(c, op))
  {
    if !c.broken {
      match op {
        case OpEstablish(acts) =>
          if c.state == Connecting {
            PerformAllKeeps(SetEvents(c.(state := Connected), c.events.(read := true)), acts);
          }
        case OpDispatch(ev, r, written) =>
          if c.events != NO_INTEREST { DispatchKeeps(c, ev, r, written); }
        case OpLocal(acts) => PerformAllKeeps(c, acts);
        case OpDestroy =>
        case OpRunTask(written) => RunTaskKeeps(c, written);
        case OpPostSend(msg) =>
        case OpPostSendChars(mem, len) =>
        case OpPostShutdown =>
      }
    }
  }

  /** Stream conservation: after any run, by any threads, with any results of read and write,
      the wire followed by the buffer is every accepted message in order; a live connection
      asks for write events exactly while bytes are buffered; and no half-close is forgotten. */
  lemma {:induction false} RunConserves(c: Conn, ops: seq<Op>)
    requires Inv(c) && RunSafe(c, ops)
    ensures Inv(Run(c, ops))
    decreases ops
  {
    if ops != [] && !c.broken {
      StepKeeps(c, ops[0]);
      RunConserves(Step(c, ops[0]), ops[1..]);
    } else if ops != [] {
      RunConserves(Step(c, ops[0]), ops[1..]);
    }
  }
}
