/** The record that the server handshake keeps of a connection is what the TcpConnection state
    machine looks like from outside: its steps move the record as the handshake says, and the
    handshake calls it only where it may be called. */
module ServerConnections {
  import opened Common
  import opened Channels
  import opened Connections
  import opened ConnectionStream
  import opened ConnectionClose
  import L = ServerLifecycle

  /** A connection seen from the server. */
  function Seen(c: Conn, loop: nat): L.Info {
    L.Info(c.state, loop, c.events.read, Registered(c), c.closes)
  }

  lemma FreshIsSeen(loop: nat)
    ensures Kept(FRESH) && Seen(FRESH, loop) == L.Info(Connecting, loop, false, false, 0)
  {
  }

  /** While a connection is not closed, its state alone fixes what the server sees. */
  lemma SeenByState(c: Conn, loop: nat)
    requires Sound(c)
    ensures c.state == Connecting ==> Seen(c, loop) == L.Info(Connecting, loop, false, false, 0)
    ensures Live(c) ==> Seen(c, loop) == L.Info(c.state, loop, true, true, 0)
    ensures c.state == Disconnected ==> Seen(c, loop) == L.Info(Disconnected, loop, false, Registered(c), 1)
  {
  }

  /** connectEstablished moves the record from Connecting on; the user's callback may already
      ask for a half-close. */
  lemma EstablishIsSeen(c: Conn, acts: seq<Act>, loop: nat)
    requires Kept(c) && c.state == Connecting && OpSafe(c, OpEstablish(acts))
    ensures Kept(Step(c, OpEstablish(acts)))
    ensures var was, now := Seen(c, loop), Seen(Step(c, OpEstablish(acts)), loop);
            now == if Step(c, OpEstablish(acts)).state == Connected then L.Established(was)
                   else L.HalfClosing(L.Established(was))
  {
    StepKept(c, OpEstablish(acts));
    SeenByState(c, loop);
    SeenByState(Step(c, OpEstablish(acts)), loop);
    PerformAllStays(SetEvents(c.(state := Connected), c.events.(read := true)), acts);
  }

  /** What a step between establishment and destruction does to the record. */
  function Moves(c: Conn, d: Conn, was: L.Info): L.Info {
    if Live(c) && d.state == Disconnected then L.Closed(was)
    else if c.state == Connected && d.state == Disconnecting then L.HalfClosing(was)
    else was
  }

  /** Between establishment and destruction the record changes only by a half-close request on a
      connected connection, or by the close of an open one; it closes exactly when poll reports
      POLLHUP alone, or a read that poll asked for meets end of file. */
  lemma StepIsSeen(c: Conn, op: Op, loop: nat)
    requires Kept(c) && OpSafe(c, op) && Served(c, op) && !op.OpEstablish? && !op.OpDestroy?
    ensures Kept(Step(c, op))
    ensures Seen(Step(c, op), loop) == Moves(c, Step(c, op), Seen(c, loop))
    ensures Live(c) && Step(c, op).state == Disconnected <==> Closes(c, op)
    ensures Closes(c, op) ==> Registered(Step(c, op))
  {
    StepKept(c, op);
    SeenByState(c, loop);
    SeenByState(Step(c, op), loop);
    StatesStep(c, op);
  }

  lemma StatesStep(c: Conn, op: Op)
    requires Kept(c) && OpSafe(c, op) && Served(c, op) && !op.OpEstablish? && !op.OpDestroy?
    ensures c.state == Connecting ==> Step(c, op).state == Connecting
    ensures c.state == Disconnected ==> Step(c, op).state == Disconnected && Step(c, op).calls == c.calls
    ensures Live(c) ==> if Closes(c, op) then Step(c, op).state == Disconnected && Registered(Step(c, op)) else Live(Step(c, op))
    ensures c.state == Disconnecting ==> Step(c, op).state != Connected
  {
    match op {
      case OpDispatch(ev, r, written) =>
        if Live(c) && r.Received? {
          PerformAllStays(c, r.acts);
          PerformAllIdle(HandleClose(c), r.acts);
          if c.state == Disconnecting { PerformAllIdle(c, r.acts); }
        }
      case OpLocal(acts) =>
        if c.state == Connected { PerformAllStays(c, acts); } else { PerformAllIdle(c, acts); }
      case OpRunTask(written) =>
        if c.queue != [] {
          assert c.queue[0] in c.queue;
          if c.state == Disconnected { NothingToSend(c, written); }
        }
      case _ =>
    }
  }

  /** In the only phase in which the handshake runs connectDestroyed, the connection is closed and
      registered, so the call passes its assert if and only if nobody has switched write events on
      again; and then it does nothing but take the channel from the poller. */
  lemma DestroyIsSeen(s: L.Server, id: L.Id, c: Conn)
    requires L.Inv(s) && id in s.conns && L.PhaseOf(s, id) == L.DestroyPending
    requires !c.broken && Seen(c, s.conns[id].loop) == s.conns[id]
    ensures c.state == Disconnected && Registered(c)
    ensures !Step(c, OpDestroy).broken <==> !c.events.write
    ensures !c.events.write ==> Seen(Step(c, OpDestroy), s.conns[id].loop) == L.Unregistered(s.conns[id])
  {
    assert L.Good(s, id);
  }
}
