/** Closing a connection: the half-close, the single close callback and the discipline its
    channel keeps towards the poller. */
module ConnectionClose {
  import opened Common
  import opened Channels
  import opened Connections
  import opened ConnectionStream

  // ----- Half-close, whoever calls -----

  /** No write() and no shutdownWrite() will ever follow. */
  ghost predicate Silent(c: Conn) {
    forall ops: seq<Op> :: Run(c, ops).writes == c.writes && Run(c, ops).halfCloses == c.halfCloses
  }

  predicate Quiet(c: Conn) {
    (c.state == Disconnecting || c.state == Disconnected) && c.queue == [] && !c.events.write
  }

  lemma StepStaysQuiet(c: Conn, op: Op)
    requires Quiet(c)
    ensures Quiet(Step(c, op))
    ensures var d := Step(c, op); d.writes == c.writes && d.halfCloses == c.halfCloses
    ensures var d := Step(c, op); d.wire == c.wire && d.accepted == c.accepted && d.out == c.out
  {
    if !c.broken {
      match op {
        case OpDispatch(ev, r, written) =>
          var c1 := if ev.hup && !ev.pollin then HandleClose(c) else c;
          if r.Received? { PerformAllIdle(c1, r.acts); }
        case OpLocal(acts) => PerformAllIdle(c, acts);
        case _ =>
      }
    }
  }

  lemma {:induction false} PerformAllIdle(c: Conn, acts: seq<Act>)
    requires c.state != Connected
    ensures PerformAll(c, acts) == c
    decreases acts
  {
    if acts != [] && !c.broken {
      PerformAllIdle(Perform(c, acts[0]), acts[1..]);
    }
  }

  lemma {:induction false} RunStaysQuiet(c: Conn, ops: seq<Op>)
    requires Quiet(c)
    ensures var d := Run(c, ops); Quiet(d) && d.writes == c.writes && d.halfCloses == c.halfCloses
    ensures var d := Run(c, ops); d.wire == c.wire && d.accepted == c.accepted && d.out == c.out
    decreases ops
  {
    if ops != [] {
      StepStaysQuiet(c, ops[0]);
      RunStaysQuiet(Step(c, ops[0]), ops[1..]);
    }
  }

  /** The half-close is final exactly when no functor of this connection is still queued:
      another thread's queued send or shutdown would write to, or shut down, the closed side. */
  lemma HalfCloseFinalIff(c: Conn)
    requires Inv(c) && !c.broken
    requires c.state == Disconnecting && c.out == [] && c.halfCloses > 0
    ensures Silent(c) <==> c.queue == []
  {
    if c.queue == [] {
      forall ops: seq<Op>
        ensures Run(c, ops).writes == c.writes && Run(c, ops).halfCloses == c.halfCloses
      {
        RunStaysQuiet(c, ops);
      }
    } else {
      // Running the head of the queue already writes or shuts down.
      var ops := [OpRunTask(0)];
      RunOne(c, ops[0]);
      var d := Run(c, ops);
      assert c.queue[0] in c.queue;
      assert d.writes > c.writes || d.halfCloses > c.halfCloses;
    }
  }

  /** Whoever calls: the step that half-closes a connection still open leaves every accepted byte
      on the wire, and it is final exactly when no functor is queued. */
  lemma HalfCloseIsDrained(ops: seq<Op>, op: Op)
    requires RunSafe(FRESH, ops) && OpSafe(Run(FRESH, ops), op)
    requires var c := Run(FRESH, ops); Step(c, op).halfCloses > c.halfCloses && Live(Step(c, op))
    ensures var d := Step(Run(FRESH, ops), op);
            && d.state == Disconnecting && d.wire == d.accepted && d.out == [] && !d.broken
            && (Silent(d) <==> d.queue == [])
  {
    RunConserves(FRESH, ops);
    var c := Run(FRESH, ops);
    StepKeeps(c, op);
    HalfCloseStep(c, op);
    HalfCloseFinalIff(Step(c, op));
    assert c.wire + [] == c.wire;
  }

  lemma HalfCloseStep(c: Conn, op: Op)
    requires Inv(c) && OpSafe(c, op)
    requires Step(c, op).halfCloses > c.halfCloses && Live(Step(c, op))
    ensures Step(c, op).out == [] && !Step(c, op).broken
  {
    match op {
      case OpEstablish(acts) =>
        HalfClosingActs(SetEvents(c.(state := Connected), c.events.(read := true)), acts);
      case OpDispatch(ev, r, written) => HalfCloseDispatch(c, ev, r, written);
      case OpLocal(acts) => HalfClosingActs(c, acts);
      case _ =>
    }
  }

  lemma HalfCloseDispatch(c: Conn, ev: Revents, r: ReadResult, written: int)
    requires Inv(c) && !c.broken && OpSafe(c, OpDispatch(ev, r, written))
    requires var d := Dispatch(c, ev, r, written); d.halfCloses > c.halfCloses && Live(d)
    ensures var d := Dispatch(c, ev, r, written); d.out == [] && !d.broken
  {
    var c1 := if ev.hup && !ev.pollin then HandleClose(c) else c;
    if r.Received? {
      if !Live(c1) { PerformAllIdle(c1, r.acts); }
      HalfClosingActs(c1, r.acts);
      PerformAllKeeps(c1, r.acts);
    }
  }

  lemma {:induction false} HalfClosingActs(c: Conn, acts: seq<Act>)
    requires Inv(c) && ActsSafe(c, acts) && !c.broken
    ensures !PerformAll(c, acts).broken
    ensures PerformAll(c, acts).halfCloses > c.halfCloses ==> PerformAll(c, acts).out == []
    decreases acts
  {
    if acts != [] {
      var c1 := Perform(c, acts[0]);
      if c.state == Connected {
        match acts[0] {
          case ActSend(msg, written) => SendInLoopKeeps(c, msg, written);
          case ActSendChars(mem, len, written) => SendCharsKeeps(c, mem, len, written);
          case ActShutdown => PerformAllIdle(c1, acts[1..]);
        }
      }
      HalfClosingActs(c1, acts[1..]);
    }
  }

  /** It happens: a send of another thread is still queued when the loop's own thread shuts down. */
  lemma HalfCloseWithSendQueued()
    ensures var c := Run(FRESH, [OpEstablish([]), OpPostSend([1]), OpLocal([ActShutdown])]);
            c.state == Disconnecting && c.out == [] && c.halfCloses == 1 && c.queue == [SendTask([1])] && !c.broken
  {
    RunThree(FRESH, OpEstablish([]), OpPostSend([1]), OpLocal([ActShutdown]));
    var c := Send(Establish(FRESH, []), [1], false, 0);
    assert [ActShutdown][1..] == [];
    assert PerformAll(c, [ActShutdown]) == PerformAll(Perform(c, ActShutdown), []);
  }

  lemma RunOne(c: Conn, op: Op)
    ensures Run(c, [op]) == Step(c, op)
  {
    assert [op][1..] == [];
    assert Run(Step(c, op), []) == Step(c, op);
  }

  lemma {:induction false} RunConcat(c: Conn, a: seq<Op>, b: seq<Op>)
    ensures Run(c, a + b) == Run(Run(c, a), b)
    decreases a
  {
    if a == [] {
      assert a + b == b;
    } else {
      assert (a + b)[0] == a[0] && (a + b)[1..] == a[1..] + b;
      RunConcat(Step(c, a[0]), a[1..], b);
    }
  }

  // ----- What the close asks of its callers, whoever sends -----

  /** A queued functor that will send at least one byte. */
  predicate HasBytes(t: Task) {
    match t
    case SendTask(msg) => msg != []
    case SendCharsTask(_, len) => len > 0
    case ShutdownTask => false
  }

  predicate NoBytesQueued(c: Conn) {
    forall t | t in c.queue :: !HasBytes(t)
  }

  /** Requests of a live channel: updates that keep the read interest. */
  ghost predicate LiveCalls(calls: seq<PollCall>) {
    calls != [] && forall i | 0 <= i < |calls| :: calls[i].UpdateCall? && calls[i].events.read
  }

  /** A live channel's requests, then one update to no interest. */
  ghost predicate Closing(calls: seq<PollCall>) {
    var n := |calls| - 1;
    n >= 0 && LiveCalls(calls[..n]) && calls[n] == UpdateCall(NO_INTEREST)
  }

  /** These, then one removal. */
  ghost predicate Removed(calls: seq<PollCall>) {
    var n := |calls| - 1;
    n >= 0 && Closing(calls[..n]) && calls[n] == RemoveCall
  }

  ghost predicate Discipline(c: Conn) {
    match c.state
    case Connecting => c.calls == []
    case Disconnected => c.events == NO_INTEREST && (Closing(c.calls) || Removed(c.calls))
    case _ => LiveCalls(c.calls) && c.calls[|c.calls| - 1] == UpdateCall(c.events)
  }

  lemma LiveSnoc(calls: seq<PollCall>, events: Interest)
    requires calls == [] || LiveCalls(calls)
    requires events.read
    ensures LiveCalls(calls + [UpdateCall(events)])
  {
  }

  lemma ClosingSnoc(calls: seq<PollCall>)
    requires LiveCalls(calls)
    ensures Closing(calls + [UpdateCall(NO_INTEREST)])
  {
    assert (calls + [UpdateCall(NO_INTEREST)])[..|calls|] == calls;
  }

  lemma RemovedSnoc(calls: seq<PollCall>)
    requires Closing(calls)
    ensures Removed(calls + [RemoveCall])
  {
    assert (calls + [RemoveCall])[..|calls|] == calls;
  }

  /** No assert has failed, and the close callback has run exactly once if the connection is closed. */
  ghost predicate Sound(c: Conn) {
    Inv(c) && !c.broken && Discipline(c) && c.closes == (if c.state == Disconnected then 1 else 0)
  }

  /** And a closed connection has nothing left to send. */
  ghost predicate Kept(c: Conn) {
    Sound(c) && (c.state == Disconnected ==> NoBytesQueued(c))
  }

  /** The dispatch calls handleClose on a live connection. */
  predicate ClosesOn(ev: Revents, r: ReadResult) {
    (ev.hup && !ev.pollin) || ((ev.pollin || ev.pri || ev.hup) && r.Eof?)
  }

  /** The step closes the connection. */
  predicate Closes(c: Conn, op: Op) {
    Live(c) && (op.OpDestroy? || (op.OpDispatch? && ClosesOn(op.ev, op.read)))
  }

  /** What the step demands: it is established once; poll reports no POLLNVAL, nor POLLHUP alone
      before an end of file; it is destroyed while in the poller; and when it closes, no functor
      of another thread still has bytes to send. */
  predicate Served(c: Conn, op: Op) {
    && (op.OpEstablish? ==> c.state == Connecting)
    && (op.OpDispatch? && c.events != NO_INTEREST ==> !op.ev.nval && !(op.ev.hup && !op.ev.pollin && op.read.Eof?))
    && (op.OpDestroy? ==> Registered(c))
    && (Closes(c, op) ==> NoBytesQueued(c))
  }

  lemma {:induction false} PerformAllAsksMore(c: Conn, acts: seq<Act>)
    ensures c.calls <= PerformAll(c, acts).calls
    decreases acts
  {
    if acts != [] && !c.broken { PerformAllAsksMore(Perform(c, acts[0]), acts[1..]); }
  }

  lemma HandleReadAsksMore(c: Conn, r: ReadResult)
    ensures c.calls <= HandleRead(c, r).calls
  {
    if r.Received? { PerformAllAsksMore(c, r.acts); }
  }

  lemma DispatchAsksMore(c: Conn, ev: Revents, r: ReadResult, written: int)
    ensures c.calls <= Dispatch(c, ev, r, written).calls
  {
    var c1 := if ev.hup && !ev.pollin then HandleClose(c) else c;
    HandleReadAsksMore(c1, r);
    var c2 := if !c1.broken && (ev.pollin || ev.pri || ev.hup) then HandleRead(c1, r) else c1;
    HandleWriteAsksMore(c2, written);
  }

  lemma HandleWriteAsksMore(c: Conn, written: int)
    ensures c.calls <= HandleWrite(c, written).calls
  {
  }

  /** What was asked of the poller stays asked. */
  lemma StepAsksMore(c: Conn, op: Op)
    ensures c.calls <= Step(c, op).calls
  {
    match op {
      case OpEstablish(acts) =>
        PerformAllAsksMore(SetEvents(c.(state := Connected), c.events.(read := true)), acts);
      case OpDispatch(ev, r, written) => DispatchAsksMore(c, ev, r, written);
      case OpLocal(acts) => PerformAllAsksMore(c, acts);
      case _ =>
    }
  }

  lemma SendInLoopKept(c: Conn, msg: Bytes, written: int)
    requires Sound(c) && Live(c)
    ensures Sound(SendInLoop(c, msg, written))
  {
    SendInLoopKeeps(c, msg, written);
    LiveSnoc(c.calls, c.events.(write := true));
  }

  /** A functor without bytes sends nothing, closed as the connection may be. */
  lemma NothingToSend(c: Conn, written: int)
    requires c.queue != [] && !HasBytes(c.queue[0])
    ensures var d := RunTask(c, written);
            && d.broken == c.broken && d.events == c.events && d.state == c.state
            && d.calls == c.calls && d.closes == c.closes && d.queue == c.queue[1..]
  {
  }

  lemma {:induction false} PerformAllKept(c: Conn, acts: seq<Act>)
    requires Kept(c) && ActsSafe(c, acts)
    ensures Kept(PerformAll(c, acts))
    decreases acts
  {
    if acts != [] {
      match acts[0] {
        case ActSend(msg, written) =>
          if c.state == Connected { SendInLoopKept(c, msg, written); }
        case ActSendChars(mem, len, written) =>
          if c.state == Connected {
            SendCharsKeeps(c, mem, len, written);
            SendInLoopKept(c, mem[..len], written);
          }
        case ActShutdown =>
      }
      PerformAllKept(Perform(c, acts[0]), acts[1..]);
    }
  }

  lemma HandleWriteKept(c: Conn, written: int)
    requires Kept(c)
    ensures Kept(HandleWrite(c, written))
  {
    HandleWriteKeeps(c, written);
    if Live(c) { LiveSnoc(c.calls, c.events.(write := false)); }
  }

  lemma HandleCloseSound(c: Conn)
    requires Sound(c) && Live(c)
    ensures Sound(HandleClose(c))
  {
    HandleCloseKeeps(c);
    assert Discipline(HandleClose(c)) by {
      assert HandleClose(c).calls == c.calls + [UpdateCall(NO_INTEREST)];
      ClosingSnoc(c.calls);
    }
  }

  lemma DispatchKept(c: Conn, ev: Revents, r: ReadResult, written: int)
    requires Kept(c) && Live(c) && OpSafe(c, OpDispatch(ev, r, written)) && Served(c, OpDispatch(ev, r, written))
    ensures Kept(Dispatch(c, ev, r, written))
  {
    var c1 := if ev.hup && !ev.pollin then HandleClose(c) else c;
    HandleCloseSound(c);
    if r.Received? { PerformAllKept(c1, r.acts); }
    var c2 := if ev.pollin || ev.pri || ev.hup then HandleRead(c1, r) else c1;
    HandleWriteKept(c2, written);
  }

  lemma DestroyKept(c: Conn)
    requires Kept(c) && Registered(c) && (Live(c) ==> NoBytesQueued(c))
    ensures Kept(Destroy(c))
  {
    if Live(c) {
      HandleCloseSound(c);
      DestroyClosed(HandleClose(c));
      assert Destroy(c) == Destroy(HandleClose(c));
    } else {
      DestroyClosed(c);
    }
  }

  lemma DestroyClosed(c: Conn)
    requires Kept(c) && Registered(c) && c.state == Disconnected
    ensures Kept(Destroy(c)) && Destroy(c) == c.(calls := c.calls + [RemoveCall])
  {
    RemovedSnoc(c.calls);
  }

  lemma RunTaskKept(c: Conn, written: int)
    requires Kept(c) && c.queue != [] && OpSafe(c, OpRunTask(written))
    ensures Kept(RunTask(c, written))
  {
    RunTaskKeeps(c, written);
    var c1 := c.(queue := c.queue[1..]);
    assert c.queue[0] in c.queue;
    if !HasBytes(c.queue[0]) {
      NothingToSend(c, written);
    } else {
      assert Live(c);
      LiveSnoc(c.calls, c.events.(write := true));
    }
  }

  lemma StepKept(c: Conn, op: Op)
    requires Kept(c) && OpSafe(c, op) && Served(c, op)
    ensures Kept(Step(c, op))
  {
    match op {
      case OpEstablish(acts) =>
        PerformAllKept(SetEvents(c.(state := Connected), c.events.(read := true)), acts);
      case OpDispatch(ev, r, written) =>
        if c.events != NO_INTEREST { DispatchKept(c, ev, r, written); }
      case OpLocal(acts) => PerformAllKept(c, acts);
      case OpDestroy => DestroyKept(c);
      case OpRunTask(written) => if c.queue != [] { RunTaskKept(c, written); }
      case _ =>
    }
  }

  /** One step of anybody keeps all of it if and only if what it demands is met. */
  lemma StepKeptIff(c: Conn, op: Op)
    requires Kept(c) && OpSafe(c, op)
    ensures Kept(Step(c, op)) <==> Served(c, op)
  {
    if Served(c, op) {
      StepKept(c, op);
    } else if op.OpDispatch? && c.events != NO_INTEREST {
      DispatchUnserved(c, op.ev, op.read, op.written);
    }
  }

  lemma DispatchUnserved(c: Conn, ev: Revents, r: ReadResult, written: int)
    requires Kept(c) && Live(c) && OpSafe(c, OpDispatch(ev, r, written)) && !Served(c, OpDispatch(ev, r, written))
    ensures var d := Dispatch(c, ev, r, written); d.broken || (d.state == Disconnected && !NoBytesQueued(d))
  {
    var c1 := if ev.hup && !ev.pollin then HandleClose(c) else c;
    if r.Received? { PerformAllStays(c1, r.acts); }
  }

  predicate RunServed(c: Conn, ops: seq<Op>)
    decreases ops
  {
    ops == [] || (OpSafe(c, ops[0]) && Served(c, ops[0]) && RunServed(Step(c, ops[0]), ops[1..]))
  }

  /** Over every run of the loop's thread and any others whose steps meet their demands: no
      assert of the connection fails, the close callback runs once per closed connection, and
      the channel keeps its discipline. */
  lemma {:induction false} RunKept(c: Conn, ops: seq<Op>)
    requires Kept(c) && RunServed(c, ops)
    ensures Kept(Run(c, ops))
    decreases ops
  {
    if ops != [] {
      StepKept(c, ops[0]);
      RunKept(Step(c, ops[0]), ops[1..]);
    }
  }

  // ----- Why a closed connection must have nothing left to send -----

  predicate NoHandshake(ops: seq<Op>) {
    forall op | op in ops :: !op.OpEstablish? && !op.OpDestroy?
  }

  /** connectDestroyed will not fail its assert, whatever else happens first. */
  ghost predicate Destroyable(c: Conn) {
    forall ops: seq<Op> | NoHandshake(ops) :: !Step(Run(c, ops), OpDestroy).broken
  }

  /** A closed connection can be destroyed safely exactly when no functor of another thread still
      has bytes to send: such a functor writes to the closed side and asks for write events again. */
  lemma DestroyableIff(c: Conn)
    requires Sound(c) && c.state == Disconnected && Registered(c)
    ensures Destroyable(c) <==> NoBytesQueued(c)
  {
    if NoBytesQueued(c) {
      forall ops: seq<Op> | NoHandshake(ops)
        ensures !Step(Run(c, ops), OpDestroy).broken
      {
        RunStaysClosed(c, ops);
      }
    } else {
      var ops := Reopened(c);
      assert Step(Run(c, ops), OpDestroy).broken;
    }
  }

  lemma {:induction false} RunStaysClosed(c: Conn, ops: seq<Op>)
    requires Kept(c) && c.state == Disconnected && NoHandshake(ops)
    ensures var d := Run(c, ops); Kept(d) && d.state == Disconnected && d.calls == c.calls
    decreases ops
  {
    if ops != [] {
      assert ops[0] in ops;
      StepStaysClosed(c, ops[0]);
      RunStaysClosed(Step(c, ops[0]), ops[1..]);
    }
  }

  lemma StepStaysClosed(c: Conn, op: Op)
    requires Kept(c) && c.state == Disconnected && !op.OpEstablish? && !op.OpDestroy?
    ensures var d := Step(c, op); Kept(d) && d.state == Disconnected && d.calls == c.calls
  {
    match op {
      case OpLocal(acts) => PerformAllIdle(c, acts);
      case OpRunTask(written) =>
        if c.queue != [] {
          assert c.queue[0] in c.queue;
          assert OpSafe(c, op);
          NothingToSend(c, written);
          RunTaskKeeps(c, written);
        }
      case _ =>
    }
  }

  /** The functors up to the first with bytes, whose write fails. */
  lemma {:induction false} Reopened(c: Conn) returns (ops: seq<Op>)
    requires c.state == Disconnected && c.events == NO_INTEREST && !c.broken && !NoBytesQueued(c)
    ensures NoHandshake(ops)
    ensures var d := Run(c, ops);
            || d.broken
            || (d.state == Disconnected && d.events.write && d.calls == c.calls + [UpdateCall(d.events)])
    decreases |c.queue|
  {
    var op, d := OpRunTask(-1), RunTask(c, -1);
    if HasBytes(c.queue[0]) {
      ops := [op];
      RunOne(c, op);
    } else {
      NothingToSend(c, -1);
      assert c.queue == [c.queue[0]] + d.queue;
      var rest := Reopened(d);
      ops := [op] + rest;
      assert ops[1..] == rest;
    }
  }

  /** It happens: another thread sends, the loop reads end of file before it runs the functor. */
  lemma SendAcrossCloseBreaks()
    ensures var pollin := NO_EVENTS.(pollin := true);
            Run(FRESH, [OpEstablish([]), OpPostSend([1]), OpDispatch(pollin, Eof, 0), OpRunTask(-1), OpDestroy]).broken
  {
    var pollin := NO_EVENTS.(pollin := true);
    var ops := [OpEstablish([]), OpPostSend([1]), OpDispatch(pollin, Eof, 0), OpRunTask(-1), OpDestroy];
    RunFive(FRESH, ops[0], ops[1], ops[2], ops[3], ops[4]);
  }

  lemma RunTwo(c: Conn, a: Op, b: Op)
    ensures Run(c, [a, b]) == Step(Step(c, a), b)
  {
    assert [a, b][1..] == [b];
    RunOne(Step(c, a), b);
  }

  lemma RunThree(c: Conn, a: Op, b: Op, op: Op)
    ensures Run(c, [a, b, op]) == Step(Step(Step(c, a), b), op)
  {
    assert [a, b, op][1..] == [b, op];
    RunTwo(Step(c, a), b, op);
  }

  lemma RunFive(c: Conn, a: Op, b: Op, x: Op, y: Op, z: Op)
    ensures Run(c, [a, b, x, y, z]) == Step(Step(Step(Step(Step(c, a), b), x), y), z)
  {
    assert [a, b, x, y, z][1..] == [b, x, y, z] && [b, x, y, z][1..] == [x, y, z];
    RunThree(Step(Step(c, a), b), x, y, z);
  }

  // ----- Callers on the loop's thread -----

  predicate FromLoopThread(op: Op) {
    !op.OpPostSend? && !op.OpPostSendChars? && !op.OpPostShutdown?
  }

  predicate Allowed(c: Conn, op: Op) {
    FromLoopThread(op) && OpSafe(c, op) && Served(c, op)
  }

  predicate RunAllowed(c: Conn, ops: seq<Op>)
    decreases ops
  {
    ops == [] || (Allowed(c, ops[0]) && RunAllowed(Step(c, ops[0]), ops[1..]))
  }

  /** Without other threads the half-close happens once, over a drained buffer. */
  ghost predicate LocalInv(c: Conn) {
    Kept(c) && HalfClosedOnce(c)
  }

  predicate HalfClosedOnce(c: Conn) {
    && c.queue == []
    && c.halfCloses <= 1
    && (c.halfCloses == 1 ==> c.out == [])
    && (c.state == Disconnecting ==> (c.halfCloses == 1 <==> c.out == []))
  }

  lemma {:induction false} PerformAllLocal(c: Conn, acts: seq<Act>)
    requires LocalInv(c) && ActsSafe(c, acts)
    ensures LocalInv(PerformAll(c, acts))
    decreases acts
  {
    PerformAllKept(c, acts);
    if acts != [] {
      PerformKept(c, acts[0]);
      PerformLocal(c, acts[0]);
      PerformAllLocal(Perform(c, acts[0]), acts[1..]);
    }
  }

  lemma PerformKept(c: Conn, act: Act)
    requires Kept(c) && ActSafe(c, act)
    ensures Kept(Perform(c, act))
  {
    assert ActsSafe(c, [act]) by { assert [act][1..] == []; }
    PerformAllKept(c, [act]);
    assert [act][1..] == [];
    assert PerformAll(Perform(c, act), []) == Perform(c, act);
  }

  lemma PerformLocal(c: Conn, act: Act)
    requires LocalInv(c) && ActSafe(c, act)
    ensures HalfClosedOnce(Perform(c, act))
  {
    if act.ActSendChars? && c.state == Connected {
      SendCharsKeeps(c, act.mem, act.len, act.written);
    }
  }

  lemma HandleWriteLocal(c: Conn, written: int)
    requires LocalInv(c)
    ensures LocalInv(HandleWrite(c, written))
  {
    HandleWriteKept(c, written);
  }

  lemma DispatchLocal(c: Conn, ev: Revents, r: ReadResult, written: int)
    requires LocalInv(c) && Live(c) && Allowed(c, OpDispatch(ev, r, written))
    ensures LocalInv(Dispatch(c, ev, r, written))
  {
    var c1 := if ev.hup && !ev.pollin then HandleClose(c) else c;
    HandleCloseSound(c);
    if r.Received? { PerformAllLocal(c1, r.acts); }
    var c2 := if ev.pollin || ev.pri || ev.hup then HandleRead(c1, r) else c1;
    HandleWriteLocal(c2, written);
  }

  lemma StepLocal(c: Conn, op: Op)
    requires LocalInv(c) && Allowed(c, op)
    ensures LocalInv(Step(c, op))
  {
    match op {
      case OpEstablish(acts) =>
        PerformAllLocal(SetEvents(c.(state := Connected), c.events.(read := true)), acts);
      case OpDispatch(ev, r, written) =>
        if c.events != NO_INTEREST { DispatchLocal(c, ev, r, written); }
      case OpLocal(acts) => PerformAllLocal(c, acts);
      case OpDestroy => DestroyKept(c);
      case OpRunTask(written) =>
    }
  }

  /** With callers on the loop's thread, moreover, the half-close happens at most once, and only
      over a drained buffer. */
  lemma {:induction false} RunLocal(c: Conn, ops: seq<Op>)
    requires LocalInv(c) && RunAllowed(c, ops)
    ensures LocalInv(Run(c, ops))
    decreases ops
  {
    if ops != [] {
      StepLocal(c, ops[0]);
      RunLocal(Step(c, ops[0]), ops[1..]);
    }
  }

  /** From the half-close on, every accepted byte is on the wire and nothing more is written. */
  lemma GracefulHalfClose(before: seq<Op>, after: seq<Op>)
    requires RunAllowed(FRESH, before)
    requires Run(FRESH, before).halfCloses > 0
    ensures var c := Run(FRESH, before);
            && c.wire == c.accepted
            && Run(c, after).wire == c.wire
            && Run(c, after).writes == c.writes
            && Run(c, after).halfCloses == 1
  {
    RunLocal(FRESH, before);
    var c := Run(FRESH, before);
    RunStaysQuiet(c, after);
    assert c.wire + [] == c.wire;
  }

  // ----- One close per dispatch -----

  /** For every combination of events, read result and write result, one dispatch on a live
      connection breaks an assert exactly when the peer's hang-up is reported without
      readable data and the read that follows returns end of file: then close runs twice. */
  lemma DispatchBreaksIff(c: Conn, ev: Revents, r: ReadResult, written: int)
    requires Sound(c) && Live(c) && !ev.nval && OpSafe(c, OpDispatch(ev, r, written))
    ensures Dispatch(c, ev, r, written).broken <==> ev.hup && !ev.pollin && r.Eof?
    ensures Dispatch(c, ev, r, written).closes <= 1
  {
    var c1 := if ev.hup && !ev.pollin then HandleClose(c) else c;
    HandleCloseSound(c);
    if r.Received? {
      if Live(c1) { PerformAllKept(c1, r.acts); } else { PerformAllIdle(c1, r.acts); }
    }
  }

  /** It happens on a new connection. */
  lemma HangUpThenEofBreaks()
    ensures Run(FRESH, [OpEstablish([]), OpDispatch(NO_EVENTS.(hup := true), Eof, 0)]).broken
  {
    RunTwo(FRESH, OpEstablish([]), OpDispatch(NO_EVENTS.(hup := true), Eof, 0));
  }

  /** After the dispatch has closed the connection, its write callback changes nothing. */
  lemma WriteAfterCloseIsIdle(c: Conn, ev: Revents, r: ReadResult, written: int, written': int)
    requires Kept(c) && Live(c) && OpSafe(c, OpDispatch(ev, r, written)) && Served(c, OpDispatch(ev, r, written))
    requires Dispatch(c, ev, r, written).state == Disconnected
    ensures Dispatch(c, ev, r, written) == Dispatch(c, ev, r, written') == HandleClose(c)
    ensures ClosesOn(ev, r)
  {
    var c1 := if ev.hup && !ev.pollin then HandleClose(c) else c;
    if r.Received? {
      PerformAllStays(c, r.acts);
      PerformAllIdle(HandleClose(c), r.acts);
    }
  }
}
