/** The whole server: the handshake of ServerLifecycle, a TcpConnection machine for each connection
    it has accepted, and what every connection's channel asks of its loop's poller. The loops and
    any other threads interleave at will. */
module ServerSystems {
  import opened Common
  import opened Channels
  import C = Connections
  import S = ConnectionStream
  import K = ConnectionClose
  import L = ServerLifecycle
  import V = ServerConnections
  import T = PollTables
  import D = PollDiscipline

  /**
   * `polls` lists what the poller of each loop that carries connections has been asked: the I/O
   * loops, or without any the base loop. A loop's functors are kept by connection and by kind, and
   * run in any order, the order of its one queue among them.
   */
  datatype System = System(server: L.Server, conns: map<L.Id, C.Conn>, polls: seq<seq<T.Op>>)

  const READING := Interest(true, false)

  // Descriptors: each loop's wakeup pipe, the listening socket, and one per connection.
  const WAKEUP_FD := 0
  const LISTEN_FD := 1

  function Fd(id: L.Id): nat {
    id + 1
  }

  function Pollers(loops: nat): nat {
    if loops == 0 then 1 else loops
  }

  /** Round robin. */
  function LoopOf(loops: nat, id: L.Id): (l: nat)
    ensures l < Pollers(loops)
  {
    if loops == 0 then 0 else (id - 1) % loops
  }

  function Started(loops: nat): (w: System)
    ensures Formed(w)
  {
    var wakeup := T.Register(WAKEUP_FD, READING);
    System(L.Started(loops), map[],
           if loops == 0 then [[wakeup, T.Register(LISTEN_FD, READING)]] else seq(loops, i => [wakeup]))
  }

  ghost predicate Formed(w: System) {
    L.Inv(w.server) && w.conns.Keys == w.server.conns.Keys && |w.polls| == Pollers(w.server.loops)
  }

  function CallsOf(w: System, id: L.Id): seq<PollCall> {
    if id in w.conns then w.conns[id].calls else []
  }

  /** The connection's new state; what its channel asked for meanwhile reaches its poller. */
  function Put(w: System, id: L.Id, d: C.Conn): System
    requires |w.polls| == Pollers(w.server.loops)
  {
    var l, k := LoopOf(w.server.loops, id), |CallsOf(w, id)|;
    var asked := if k <= |d.calls| then D.Trace(Fd(id), d.calls)[k..] else [];
    w.(conns := w.conns[id := d], polls := w.polls[l := w.polls[l] + asked])
  }

  /** A loop runs removeConnectionInLoop (`RunBase`), a functor of the handshake (`RunIo`; `acts`
      is what the user's callback then does), or anything of a connection; or another thread
      calls the connection. */
  datatype Op = Accept(acts: seq<C.Act>) | RunIo(loop: nat, acts: seq<C.Act>) | RunBase | OnConn(id: L.Id, op: C.Op)

  /** The connection is established, and the user's callback may have asked for a half-close. */
  function Establish(w: System, id: L.Id, d: C.Conn): System
    requires L.Shaped(w.server) && |w.polls| == Pollers(w.server.loops)
  {
    var w1 := Put(w, id, d);
    if d.state == C.Disconnecting then w1.(server := L.Step(w.server, L.ShutdownOp(id))) else w1
  }

  /** The connection has changed from `c` to `d`. If it closed, its close callback ran, and without
      I/O threads so did all the rest of the handshake. */
  function Change(w: System, id: L.Id, c: C.Conn, d: C.Conn): System
    requires L.Shaped(w.server) && |w.polls| == Pollers(w.server.loops)
  {
    if C.Live(c) && d.state == C.Disconnected then
      Put(w, id, if w.server.loops == 0 then C.Step(d, C.OpDestroy) else d)
        .(server := L.Step(w.server, L.CloseOp(id)))
    else if c.state == C.Connected && d.state == C.Disconnecting then
      Put(w, id, d).(server := L.Step(w.server, L.ShutdownOp(id)))
    else
      Put(w, id, d)
  }

  function AcceptOne(w: System): (w1: System)
    requires Formed(w)
    ensures Formed(w1) && w1.server.loops == w.server.loops && w1.conns.Keys == w.conns.Keys + {w.server.nextId}
  {
    ServerStep(w.server, L.AcceptOp);
    Put(w, w.server.nextId, C.FRESH).(server := L.Step(w.server, L.AcceptOp))
  }

  function RunTask(w: System, l: nat, acts: seq<C.Act>): System
    requires Formed(w) && l < |w.server.io| && w.server.io[l] != []
  {
    ServerStep(w.server, L.RunIo(l));
    TaskIsKnown(w.server, l);
    var w1 := w.(server := L.Step(w.server, L.RunIo(l)));
    match w.server.io[l][0]
    case EstablishTask(id) => Establish(w1, id, C.Step(w.conns[id], C.OpEstablish(acts)))
    case DestroyTask(id) => Put(w1, id, C.Step(w.conns[id], C.OpDestroy))
  }

  function Step(w: System, op: Op): System
    requires Formed(w)
  {
    match op
    case Accept(acts) =>
      var w1 := AcceptOne(w);
      if w.server.loops == 0 then Establish(w1, w.server.nextId, C.Step(C.FRESH, C.OpEstablish(acts))) else w1
    case RunIo(l, acts) =>
      if l >= |w.server.io| || w.server.io[l] == [] then w else RunTask(w, l, acts)
    case RunBase => w.(server := L.Step(w.server, L.RunBase))
    case OnConn(id, op) =>
      if id !in w.conns || op.OpEstablish? || op.OpDestroy? then w
      else Change(w, id, w.conns[id], C.Step(w.conns[id], op))
  }

  function Run(w: System, ops: seq<Op>): System
    requires Formed(w)
    decreases ops
  {
    if ops == [] then w
    else
      StepForms(w, ops[0]);
      Run(Step(w, ops[0]), ops[1..])
  }

  // ----- The server's own steps -----

  lemma TaskIsKnown(s: L.Server, l: nat)
    requires L.Inv(s) && l < |s.io| && s.io[l] != []
    ensures s.io[l][0].id in s.conns && s.conns[s.io[l][0].id].loop == l
  {
    assert L.QueueOf(s, l, s.io[l]) && s.io[l][0] in s.io[l];
  }

  function Concerned(s: L.Server, op: L.Op): set<L.Id> {
    match L.Concerns(s, op)
    case None => {}
    case Some(id) => {id}
  }

  /** A step of the handshake leaves the records of all but the connection it concerns alone. */
  lemma ServerStep(s: L.Server, op: L.Op)
    requires L.Inv(s)
    ensures L.Inv(L.Step(s, op)) && L.Step(s, op).loops == s.loops
    ensures L.Step(s, op).conns.Keys == s.conns.Keys + Concerned(s, op)
    ensures forall j | j in s.conns && j !in Concerned(s, op) :: L.Step(s, op).conns[j] == s.conns[j]
  {
    L.StepKeeps(s, op);
    match L.Concerns(s, op) {
      case Some(id) =>
        L.StepMoves(s, op);
        MovedRecords(s, L.Step(s, op), id);
      case None => Unconcerned(s, op);
    }
  }

  lemma Unconcerned(s: L.Server, op: L.Op)
    requires L.Shaped(s) && L.Concerns(s, op).None?
    ensures L.Step(s, op) == s
  {
  }

  lemma MovedRecords(s: L.Server, s1: L.Server, id: L.Id)
    requires L.Moved(s, s1, id)
    ensures s1.loops == s.loops && s1.conns.Keys == s.conns.Keys + {id}
    ensures forall j | j in s.conns && j !in {id} :: s1.conns[j] == s.conns[j]
  {
    forall j | j in s.conns && j !in {id}
      ensures s1.conns[j] == s.conns[j]
    {
      assert L.Same(s, s1, j);
    }
  }

  /** Apart from accepting, a step brings no connection in. */
  lemma KnownStep(s: L.Server, op: L.Op)
    requires L.Inv(s) && !op.AcceptOp?
    ensures L.Inv(L.Step(s, op)) && L.Step(s, op).loops == s.loops && L.Step(s, op).conns.Keys == s.conns.Keys
  {
    ServerStep(s, op);
    if op.RunIo? && op.loop < |s.io| && s.io[op.loop] != [] { TaskIsKnown(s, op.loop); }
  }

  /** Only the shape of a system is at stake here, not what its parts hold. */
  lemma PutForms(w: System, id: L.Id, d: C.Conn, s: L.Server)
    requires Formed(w) && id in w.conns
    requires L.Inv(s) && s.loops == w.server.loops && s.conns.Keys == w.server.conns.Keys
    ensures Formed(Put(w, id, d).(server := s)) && Formed(w.(server := s))
  {
    assert Put(w, id, d).conns.Keys == w.conns.Keys;
  }

  lemma EstablishForms(w: System, id: L.Id, d: C.Conn)
    requires Formed(w) && id in w.conns
    ensures var w1 := Establish(w, id, d);
            Formed(w1) && w1.server.loops == w.server.loops && w1.conns.Keys == w.conns.Keys
  {
    KnownStep(w.server, L.ShutdownOp(id));
    PutForms(w, id, d, L.Step(w.server, L.ShutdownOp(id)));
    PutForms(w, id, d, w.server);
  }

  lemma ChangeForms(w: System, id: L.Id, c: C.Conn, d: C.Conn)
    requires Formed(w) && id in w.conns
    ensures var w1 := Change(w, id, c, d);
            Formed(w1) && w1.server.loops == w.server.loops && w1.conns.Keys == w.conns.Keys
  {
    if C.Live(c) && d.state == C.Disconnected {
      KnownStep(w.server, L.CloseOp(id));
      PutForms(w, id, if w.server.loops == 0 then C.Step(d, C.OpDestroy) else d, L.Step(w.server, L.CloseOp(id)));
    } else {
      EstablishForms(w, id, d);
      PutForms(w, id, d, w.server);
    }
  }

  lemma TaskTaken(w: System, l: nat)
    requires Formed(w) && l < |w.server.io| && w.server.io[l] != []
    ensures w.server.io[l][0].id in w.conns
    ensures Formed(w.(server := L.Step(w.server, L.RunIo(l)))) && L.Step(w.server, L.RunIo(l)).loops == w.server.loops
  {
    TaskIsKnown(w.server, l);
    KnownStep(w.server, L.RunIo(l));
  }

  lemma RunTaskForms(w: System, l: nat, acts: seq<C.Act>)
    requires Formed(w) && l < |w.server.io| && w.server.io[l] != []
    ensures var w1 := RunTask(w, l, acts);
            Formed(w1) && w1.server.loops == w.server.loops && w1.conns.Keys == w.conns.Keys
  {
    var id := w.server.io[l][0].id;
    var w1 := w.(server := L.Step(w.server, L.RunIo(l)));
    TaskTaken(w, l);
    if w.server.io[l][0].EstablishTask? {
      EstablishForms(w1, id, C.Step(w.conns[id], C.OpEstablish(acts)));
    } else {
      PutForms(w1, id, C.Step(w.conns[id], C.OpDestroy), w1.server);
    }
  }

  lemma AcceptForms(w: System, acts: seq<C.Act>)
    requires Formed(w)
    ensures var w1 := Step(w, Accept(acts));
            Formed(w1) && w1.server.loops == w.server.loops && w1.conns.Keys == w.conns.Keys + {w.server.nextId}
  {
    var w1 := AcceptOne(w);
    if w.server.loops == 0 { EstablishForms(w1, w.server.nextId, C.Step(C.FRESH, C.OpEstablish(acts))); }
  }

  /** Only accepting brings a connection in. */
  lemma StepForms(w: System, op: Op)
    requires Formed(w)
    ensures var w1 := Step(w, op);
            && Formed(w1) && w1.server.loops == w.server.loops
            && w1.conns.Keys == w.conns.Keys + (if op.Accept? then {w.server.nextId} else {})
  {
    match op {
      case Accept(acts) => AcceptForms(w, acts);
      case RunIo(l, acts) =>
        if l < |w.server.io| && w.server.io[l] != [] { RunTaskForms(w, l, acts); }
      case RunBase => KnownStep(w.server, L.RunBase);
      case OnConn(id, op) =>
        if id in w.conns { ChangeForms(w, id, w.conns[id], C.Step(w.conns[id], op)); }
    }
  }

  // ----- Server and connections agree -----

  /** The connection keeps its invariant, and the server's record is what it looks like. */
  ghost predicate TiedAt(w: System, id: L.Id) {
    && id in w.conns && id in w.server.conns
    && K.Kept(w.conns[id])
    && V.Seen(w.conns[id], w.server.conns[id].loop) == w.server.conns[id]
  }

  ghost predicate Tied(w: System) {
    Formed(w) && forall id | id in w.conns :: TiedAt(w, id)
  }

  /** Every char-pointer send is safe at the moment it executes. */
  predicate Safe(w: System, op: Op) {
    match op
    case Accept(acts) => w.server.loops == 0 ==> S.OpSafe(C.FRESH, C.OpEstablish(acts))
    case RunIo(l, acts) =>
      l < |w.server.io| && w.server.io[l] != [] && w.server.io[l][0].EstablishTask? && w.server.io[l][0].id in w.conns ==>
        S.OpSafe(w.conns[w.server.io[l][0].id], C.OpEstablish(acts))
    case RunBase => true
    case OnConn(id, op) => id in w.conns && !op.OpEstablish? && !op.OpDestroy? ==> S.OpSafe(w.conns[id], op)
  }

  /** What the steps demand of poll and of other threads. Nothing is demanded of the handshake. */
  predicate Met(w: System, op: Op) {
    op.OnConn? && op.id in w.conns && !op.op.OpEstablish? && !op.op.OpDestroy? ==> K.Served(w.conns[op.id], op.op)
  }

  lemma AcceptEffect(s: L.Server)
    requires L.Inv(s)
    ensures s.nextId !in s.conns
    ensures var s1, arrived := L.Step(s, L.AcceptOp), L.Info(C.Connecting, s.next, false, false, 0);
            && s.nextId in s1.conns
            && s1.conns[s.nextId] == if s.loops == 0 then L.Established(arrived.(loop := 0)) else arrived
  {
  }

  lemma CloseEffect(s: L.Server, id: L.Id)
    requires L.Inv(s) && id in s.conns && s.conns[id].reading
    ensures id in L.Step(s, L.CloseOp(id)).conns
    ensures L.Step(s, L.CloseOp(id)).conns[id] ==
            if s.loops == 0 then L.Unregistered(L.Closed(s.conns[id])) else L.Closed(s.conns[id])
  {
    if s.loops == 0 {
      L.CloseInline(s, id);
    } else {
      assert L.Good(s, id);
    }
  }

  lemma TaskEffect(s: L.Server, l: nat)
    requires L.Inv(s) && l < |s.io| && s.io[l] != []
    ensures var id, task := s.io[l][0].id, s.io[l][0];
            && id in s.conns && id in L.Step(s, L.RunIo(l)).conns
            && L.Step(s, L.RunIo(l)).conns[id] == L.AfterTask(s.conns[id], task)
            && L.PhaseOf(s, id) == if task.EstablishTask? then L.EstablishPending else L.DestroyPending
  {
    L.DequeuedIo(s, l);
    L.RunIoIs(s, l);
  }

  lemma EstablishTies(w: System, id: L.Id, c: C.Conn, acts: seq<C.Act>)
    requires Formed(w) && id in w.conns && K.Kept(c) && c.state == C.Connecting && S.OpSafe(c, C.OpEstablish(acts))
    requires w.server.conns[id] == L.Established(V.Seen(c, w.server.conns[id].loop))
    ensures TiedAt(Establish(w, id, C.Step(c, C.OpEstablish(acts))), id)
  {
    V.EstablishIsSeen(c, acts, w.server.conns[id].loop);
    EstablishedTies(w, id, C.Step(c, C.OpEstablish(acts)));
  }

  lemma EstablishedTies(w: System, id: L.Id, d: C.Conn)
    requires L.Shaped(w.server) && !w.server.broken && |w.polls| == Pollers(w.server.loops)
    requires id in w.server.conns && w.server.conns[id].state == C.Connected && K.Kept(d) && d.state != C.Connecting
    requires V.Seen(d, w.server.conns[id].loop) ==
             if d.state == C.Connected then w.server.conns[id] else L.HalfClosing(w.server.conns[id])
    ensures TiedAt(Establish(w, id, d), id)
  {
  }

  lemma ChangeTies(w: System, id: L.Id, op: C.Op)
    requires Formed(w) && TiedAt(w, id) && !op.OpEstablish? && !op.OpDestroy?
    requires S.OpSafe(w.conns[id], op) && K.Served(w.conns[id], op)
    ensures TiedAt(Change(w, id, w.conns[id], C.Step(w.conns[id], op)), id)
  {
    var c, d, loop := w.conns[id], C.Step(w.conns[id], op), w.server.conns[id].loop;
    V.StepIsSeen(c, op, loop);
    V.SeenByState(c, loop);
    if C.Live(c) && d.state == C.Disconnected {
      CloseEffect(w.server, id);
      DestroyedIsSeen(d, loop);
    }
  }

  lemma DestroyedIsSeen(d: C.Conn, loop: nat)
    requires K.Kept(d) && d.state == C.Disconnected && C.Registered(d)
    ensures K.Kept(C.Step(d, C.OpDestroy))
    ensures V.Seen(C.Step(d, C.OpDestroy), loop) == L.Unregistered(V.Seen(d, loop))
  {
    K.DestroyClosed(d);
  }

  lemma RunTaskTies(w: System, l: nat, acts: seq<C.Act>)
    requires Formed(w) && l < |w.server.io| && w.server.io[l] != []
    requires TiedAt(w, w.server.io[l][0].id) && Safe(w, RunIo(l, acts))
    ensures TiedAt(RunTask(w, l, acts), w.server.io[l][0].id)
  {
    var id, c := w.server.io[l][0].id, w.conns[w.server.io[l][0].id];
    var w1 := w.(server := L.Step(w.server, L.RunIo(l)));
    TaskEffect(w.server, l);
    TaskTaken(w, l);
    if w.server.io[l][0].EstablishTask? {
      EstablishTies(w1, id, c, acts);
    } else {
      V.DestroyIsSeen(w.server, id, c);
      DestroyedIsSeen(c, w.server.conns[id].loop);
    }
  }

  /** Nothing of connection `j` differs. */
  ghost predicate Untouched(w: System, w1: System, j: L.Id) {
    && j in w.conns && j in w1.conns && w1.conns[j] == w.conns[j]
    && j in w.server.conns && j in w1.server.conns && w1.server.conns[j] == w.server.conns[j]
  }

  /** The connection a step may touch. */
  function Touched(w: System, op: Op): set<L.Id> {
    match op
    case Accept(_) => {w.server.nextId}
    case RunIo(l, _) => if l < |w.server.io| && w.server.io[l] != [] then {w.server.io[l][0].id} else {}
    case RunBase => {}
    case OnConn(id, _) => {id}
  }

  lemma OtherStays(s: L.Server, op: L.Op, j: L.Id)
    requires L.Inv(s) && j in s.conns && j !in Concerned(s, op)
    ensures j in L.Step(s, op).conns && L.Step(s, op).conns[j] == s.conns[j]
  {
    ServerStep(s, op);
  }

  /** The base loop takes a connection off the registry; no record changes. */
  lemma RunBaseRecords(s: L.Server)
    requires L.Inv(s)
    ensures L.Step(s, L.RunBase).conns == s.conns
  {
    if s.base != [] {
      assert s.base[0] in s.base && L.Good(s, s.base[0]);
      L.Dequeue(s.base, s.base[0]);
    }
  }

  lemma PutTouches(w: System, id: L.Id, d: C.Conn, s: L.Server, j: L.Id)
    requires |w.polls| == Pollers(w.server.loops)
    requires j in w.conns && j != id && j in w.server.conns
    requires j in s.conns && s.conns[j] == w.server.conns[j]
    ensures Untouched(w, Put(w, id, d).(server := s), j) && Untouched(w, w.(server := s), j)
  {
  }

  lemma EstablishTouches(w: System, id: L.Id, d: C.Conn, j: L.Id)
    requires Formed(w) && j in w.conns && j != id
    ensures Untouched(w, Establish(w, id, d), j)
  {
    OtherStays(w.server, L.ShutdownOp(id), j);
    PutTouches(w, id, d, w.server, j);
    PutTouches(w, id, d, L.Step(w.server, L.ShutdownOp(id)), j);
  }

  lemma PutStepTouches(w: System, id: L.Id, d: C.Conn, op: L.Op, j: L.Id)
    requires Formed(w) && j in w.conns && j != id && (op == L.CloseOp(id) || op == L.ShutdownOp(id))
    ensures Untouched(w, Put(w, id, d).(server := L.Step(w.server, op)), j)
  {
    OtherStays(w.server, op, j);
    PutTouches(w, id, d, L.Step(w.server, op), j);
  }

  lemma ChangeTouches(w: System, id: L.Id, c: C.Conn, d: C.Conn, j: L.Id)
    requires Formed(w) && j in w.conns && j != id
    ensures Untouched(w, Change(w, id, c, d), j)
  {
    if C.Live(c) && d.state == C.Disconnected {
      PutStepTouches(w, id, if w.server.loops == 0 then C.Step(d, C.OpDestroy) else d, L.CloseOp(id), j);
    } else if c.state == C.Connected && d.state == C.Disconnecting {
      PutStepTouches(w, id, d, L.ShutdownOp(id), j);
    } else {
      PutTouches(w, id, d, w.server, j);
    }
  }

  lemma EstablishTouchesNext(w: System, w1: System, id: L.Id, d: C.Conn, j: L.Id)
    requires Untouched(w, w1, j) && Formed(w1) && j != id
    ensures Untouched(w, Establish(w1, id, d), j)
  {
    EstablishTouches(w1, id, d, j);
  }

  lemma TaskTakenTouches(w: System, l: nat, j: L.Id)
    requires Formed(w) && l < |w.server.io| && w.server.io[l] != [] && j in w.conns && j != w.server.io[l][0].id
    ensures Untouched(w, w.(server := L.Step(w.server, L.RunIo(l))), j)
  {
    L.HeadIsKnown(w.server, l);
    L.RunIoIs(w.server, l);
  }

  lemma PutTouchesNext(w: System, w1: System, id: L.Id, d: C.Conn, j: L.Id)
    requires Untouched(w, w1, j) && |w1.polls| == Pollers(w1.server.loops) && j != id
    ensures Untouched(w, Put(w1, id, d), j)
  {
  }

  lemma RunTaskTouches(w: System, l: nat, acts: seq<C.Act>, j: L.Id)
    requires Formed(w) && l < |w.server.io| && w.server.io[l] != [] && j in w.conns && j != w.server.io[l][0].id
    ensures Untouched(w, RunTask(w, l, acts), j)
  {
    var id := w.server.io[l][0].id;
    var w1 := w.(server := L.Step(w.server, L.RunIo(l)));
    TaskTaken(w, l);
    TaskTakenTouches(w, l, j);
    match w.server.io[l][0] {
      case EstablishTask(_) => EstablishTouchesNext(w, w1, id, C.Step(w.conns[id], C.OpEstablish(acts)), j);
      case DestroyTask(_) => PutTouchesNext(w, w1, id, C.Step(w.conns[id], C.OpDestroy), j);
    }
  }

  lemma StepTouches(w: System, op: Op, j: L.Id)
    requires Formed(w) && j in w.conns && j !in Touched(w, op)
    ensures Untouched(w, Step(w, op), j)
  {
    match op {
      case Accept(acts) =>
        OtherStays(w.server, L.AcceptOp, j);
        PutTouches(w, w.server.nextId, C.FRESH, L.Step(w.server, L.AcceptOp), j);
        var w1 := AcceptOne(w);
        if w.server.loops == 0 { EstablishTouches(w1, w.server.nextId, C.Step(C.FRESH, C.OpEstablish(acts)), j); }
      case RunIo(l, acts) =>
        if l < |w.server.io| && w.server.io[l] != [] { RunTaskTouches(w, l, acts, j); }
      case RunBase => RunBaseRecords(w.server);
      case OnConn(id, op) =>
        if id in w.conns { ChangeTouches(w, id, w.conns[id], C.Step(w.conns[id], op), j); }
    }
  }

  lemma AcceptTies(w: System, acts: seq<C.Act>)
    requires Formed(w) && Safe(w, Accept(acts))
    ensures TiedAt(Step(w, Accept(acts)), w.server.nextId)
  {
    var id := w.server.nextId;
    AcceptEffect(w.server);
    V.FreshIsSeen(w.server.next);
    V.FreshIsSeen(0);
    if w.server.loops == 0 { EstablishTies(AcceptOne(w), id, C.FRESH, acts); }
  }

  lemma StepTies(w: System, op: Op)
    requires Tied(w) && Safe(w, op) && Met(w, op)
    ensures Tied(Step(w, op))
  {
    StepForms(w, op);
    forall j | j in Step(w, op).conns
      ensures TiedAt(Step(w, op), j)
    {
      if j in w.conns && j !in Touched(w, op) {
        assert TiedAt(w, j);
        StepTouches(w, op, j);
      } else {
        TouchedTies(w, op, j);
      }
    }
  }

  lemma TouchedTies(w: System, op: Op, j: L.Id)
    requires Tied(w) && Safe(w, op) && Met(w, op)
    requires j in Step(w, op).conns && (j !in w.conns || j in Touched(w, op))
    ensures TiedAt(Step(w, op), j)
  {
    StepForms(w, op);
    match op {
      case Accept(acts) => AcceptTies(w, acts);
      case RunIo(l, acts) => if l < |w.server.io| && w.server.io[l] != [] { RunIoTies(w, l, acts); }
      case RunBase =>
      case OnConn(id, op) =>
        if op.OpEstablish? || op.OpDestroy? {
          assert TiedAt(w, id);
        } else {
          OnConnTies(w, id, op);
        }
    }
  }

  lemma RunIoTies(w: System, l: nat, acts: seq<C.Act>)
    requires Tied(w) && Safe(w, RunIo(l, acts)) && l < |w.server.io| && w.server.io[l] != []
    ensures TiedAt(RunTask(w, l, acts), w.server.io[l][0].id)
  {
    TaskIsKnown(w.server, l);
    assert TiedAt(w, w.server.io[l][0].id);
    RunTaskTies(w, l, acts);
  }

  lemma OnConnTies(w: System, id: L.Id, op: C.Op)
    requires Tied(w) && Safe(w, OnConn(id, op)) && Met(w, OnConn(id, op))
    requires id in w.conns && !op.OpEstablish? && !op.OpDestroy?
    ensures TiedAt(Change(w, id, w.conns[id], C.Step(w.conns[id], op)), id)
  {
    assert TiedAt(w, id);
    ChangeTies(w, id, op);
  }

  /** Server and connections stay in agreement, and no assert fails, if and only if the step's
      demands are met. */
  lemma StepTiesIff(w: System, op: Op)
    requires Tied(w) && Safe(w, op)
    ensures Tied(Step(w, op)) <==> Met(w, op)
  {
    if Met(w, op) {
      StepTies(w, op);
    } else {
      assert TiedAt(w, op.id);
      var c := w.conns[op.id];
      K.DispatchUnserved(c, op.op.ev, op.op.read, op.op.written);
      UnservedShows(w, op.id, c, C.Step(c, op.op));
      assert !TiedAt(Step(w, op), op.id);
    }
  }

  lemma UnservedShows(w: System, id: L.Id, c: C.Conn, d: C.Conn)
    requires L.Shaped(w.server) && |w.polls| == Pollers(w.server.loops)
    requires d.broken || (d.state == C.Disconnected && !K.NoBytesQueued(d))
    ensures id in Change(w, id, c, d).conns && !K.Kept(Change(w, id, c, d).conns[id])
  {
    DestroyStaysUnserved(d);
  }

  lemma DestroyStaysUnserved(d: C.Conn)
    requires d.broken || (d.state == C.Disconnected && !K.NoBytesQueued(d))
    ensures !K.Kept(d) && !K.Kept(C.Step(d, C.OpDestroy))
  {
    assert d.state == C.Disconnected ==> C.Step(d, C.OpDestroy).queue == d.queue;
  }

  predicate RunMet(w: System, ops: seq<Op>)
    requires Formed(w)
    decreases ops
  {
    ops == [] || (
      && Safe(w, ops[0]) && Met(w, ops[0])
      && (StepForms(w, ops[0]); RunMet(Step(w, ops[0]), ops[1..]))
    )
  }

  lemma StartedTied(loops: nat)
    ensures Tied(Started(loops)) && Started(loops).server.loops == loops
  {
  }

  lemma {:induction false} RunTies(w: System, ops: seq<Op>)
    requires Tied(w) && RunMet(w, ops)
    ensures Tied(Run(w, ops)) && Run(w, ops).server.loops == w.server.loops
    decreases ops
  {
    if ops != [] {
      StepTies(w, ops[0]);
      StepForms(w, ops[0]);
      RunTies(Step(w, ops[0]), ops[1..]);
    }
  }

  /** Over every run of the base loop, the I/O loops and any other threads, with any number of
      connections, in which the demands on poll and on queued sends are met: no assert of
      TcpServer, TcpConnection or Channel fails, the server's record of each connection is what
      the connection looks like, and each channel keeps its discipline towards the poller. */
  lemma SystemSafe(loops: nat, ops: seq<Op>)
    requires RunMet(Started(loops), ops)
    ensures var w := Run(Started(loops), ops);
            && !w.server.broken && !w.server.reclosed
            && w.conns.Keys == w.server.conns.Keys
            && forall id | id in w.conns ::
                 && !w.conns[id].broken
                 && V.Seen(w.conns[id], w.server.conns[id].loop) == w.server.conns[id]
                 && w.conns[id].closes == (if w.conns[id].state == C.Disconnected then 1 else 0)
                 && w.conns[id].wire + w.conns[id].out == w.conns[id].accepted
                 && D.Disciplined(w.conns[id].calls)
  {
    StartedTied(loops);
    RunTies(Started(loops), ops);
    var w := Run(Started(loops), ops);
    forall id | id in w.conns
      ensures TiedAt(w, id) && D.Disciplined(w.conns[id].calls)
    {
      assert TiedAt(w, id);
      D.KeptIsDisciplined(w.conns[id]);
    }
  }

  // ----- Each connection on its own -----

  /** What a step of the system is to one connection. */
  function OpsFor(w: System, op: Op, id: L.Id): seq<C.Op> {
    match op
    case Accept(acts) => if id == w.server.nextId && w.server.loops == 0 then [C.OpEstablish(acts)] else []
    case RunIo(l, acts) =>
      if l < |w.server.io| && w.server.io[l] != [] && w.server.io[l][0].id == id then
        (match w.server.io[l][0] case EstablishTask(_) => [C.OpEstablish(acts)] case DestroyTask(_) => [C.OpDestroy])
      else []
    case RunBase => []
    case OnConn(j, op) =>
      if j != id || id !in w.conns || op.OpEstablish? || op.OpDestroy? then []
      else if w.server.loops == 0 && C.Live(w.conns[id]) && C.Step(w.conns[id], op).state == C.Disconnected then [op, C.OpDestroy]
      else [op]
  }

  function ConnOf(w: System, id: L.Id): C.Conn {
    if id in w.conns then w.conns[id] else C.FRESH
  }

  lemma StepIsRun(w: System, op: Op, id: L.Id)
    requires Formed(w)
    ensures ConnOf(Step(w, op), id) == C.Run(ConnOf(w, id), OpsFor(w, op, id))
  {
    StepForms(w, op);
    assert C.Run(ConnOf(w, id), []) == ConnOf(w, id);
    if id !in Touched(w, op) {
      if id in w.conns { StepTouches(w, op, id); }
    } else {
      match op {
        case Accept(acts) => AcceptIsRun(w, acts);
        case RunIo(l, acts) => if l < |w.server.io| && w.server.io[l] != [] { RunTaskIsRun(w, l, acts); }
        case RunBase =>
        case OnConn(_, op) => if id in w.conns && !op.OpEstablish? && !op.OpDestroy? { ChangeIsRun(w, id, op); }
      }
    }
  }

  lemma AcceptIsRun(w: System, acts: seq<C.Act>)
    requires Formed(w)
    ensures ConnOf(Step(w, Accept(acts)), w.server.nextId) ==
            C.Run(ConnOf(w, w.server.nextId), OpsFor(w, Accept(acts), w.server.nextId))
  {
    AcceptEffect(w.server);
    K.RunOne(C.FRESH, C.OpEstablish(acts));
    assert C.Run(C.FRESH, []) == C.FRESH;
  }

  lemma RunTaskIsRun(w: System, l: nat, acts: seq<C.Act>)
    requires Formed(w) && l < |w.server.io| && w.server.io[l] != []
    ensures var id := w.server.io[l][0].id;
            ConnOf(RunTask(w, l, acts), id) == C.Run(ConnOf(w, id), OpsFor(w, RunIo(l, acts), id))
  {
    TaskTaken(w, l);
    var id := w.server.io[l][0].id;
    K.RunOne(w.conns[id], C.OpEstablish(acts));
    K.RunOne(w.conns[id], C.OpDestroy);
  }

  lemma ChangeIs(w: System, id: L.Id, c: C.Conn, d: C.Conn)
    requires L.Shaped(w.server) && |w.polls| == Pollers(w.server.loops)
    ensures ConnOf(Change(w, id, c, d), id) ==
            if w.server.loops == 0 && C.Live(c) && d.state == C.Disconnected then C.Step(d, C.OpDestroy) else d
  {
  }

  lemma ChangeIsRun(w: System, id: L.Id, op: C.Op)
    requires L.Shaped(w.server) && |w.polls| == Pollers(w.server.loops)
    requires id in w.conns && !op.OpEstablish? && !op.OpDestroy?
    ensures ConnOf(Change(w, id, w.conns[id], C.Step(w.conns[id], op)), id) ==
            C.Run(w.conns[id], OpsFor(w, OnConn(id, op), id))
  {
    ChangeIs(w, id, w.conns[id], C.Step(w.conns[id], op));
    K.RunOne(w.conns[id], op);
    K.RunTwo(w.conns[id], op, C.OpDestroy);
  }

  function ConnOps(w: System, ops: seq<Op>, id: L.Id): seq<C.Op>
    requires Formed(w)
    decreases ops
  {
    if ops == [] then []
    else
      StepForms(w, ops[0]);
      OpsFor(w, ops[0], id) + ConnOps(Step(w, ops[0]), ops[1..], id)
  }

  /** Whatever the system does, each of its connections goes where its own calls, dispatches and
      functors take it: the theorems on one connection's runs hold of it. */
  lemma {:induction false} RunIsRun(w: System, ops: seq<Op>, id: L.Id)
    requires Formed(w)
    ensures ConnOf(Run(w, ops), id) == C.Run(ConnOf(w, id), ConnOps(w, ops, id))
    decreases ops
  {
    if ops != [] {
      StepForms(w, ops[0]);
      StepIsRun(w, ops[0], id);
      RunIsRun(Step(w, ops[0]), ops[1..], id);
      K.RunConcat(ConnOf(w, id), OpsFor(w, ops[0], id), ConnOps(Step(w, ops[0]), ops[1..], id));
    }
  }

  // ----- The handshake on its own -----

  /** The half-close a connection's change asks of the record. */
  function Shuts(id: L.Id, d: C.Conn): seq<L.Op> {
    if d.state == C.Disconnecting then [L.ShutdownOp(id)] else []
  }

  /** What a step of the system is to the handshake. */
  function ServerOpsFor(w: System, op: Op): seq<L.Op> {
    match op
    case Accept(acts) =>
      [L.AcceptOp] + (if w.server.loops == 0 then Shuts(w.server.nextId, C.Step(C.FRESH, C.OpEstablish(acts))) else [])
    case RunIo(l, acts) =>
      [L.RunIo(l)]
      + (if l < |w.server.io| && w.server.io[l] != [] && w.server.io[l][0].EstablishTask?
         then Shuts(w.server.io[l][0].id, C.Step(ConnOf(w, w.server.io[l][0].id), C.OpEstablish(acts))) else [])
    case RunBase => [L.RunBase]
    case OnConn(id, op) =>
      if id !in w.conns || op.OpEstablish? || op.OpDestroy? then []
      else
        var c, d := w.conns[id], C.Step(w.conns[id], op);
        if C.Live(c) && d.state == C.Disconnected then [L.CloseOp(id)]
        else if c.state == C.Connected then Shuts(id, d)
        else []
  }

  lemma ServerRunOne(s: L.Server, op: L.Op)
    requires L.Inv(s)
    ensures L.Run(s, []) == s && L.Run(s, [op]) == L.Step(s, op)
  {
    L.StepKeeps(s, op);
    assert [op][1..] == [];
    assert L.Run(L.Step(s, op), []) == L.Step(s, op);
  }

  lemma ServerRunShuts(s: L.Server, op: L.Op, id: L.Id, d: C.Conn)
    requires L.Inv(s)
    ensures L.Inv(L.Step(s, op))
    ensures L.Run(s, [op] + Shuts(id, d)) ==
            if d.state == C.Disconnecting then L.Step(L.Step(s, op), L.ShutdownOp(id)) else L.Step(s, op)
  {
    L.StepKeeps(s, op);
    assert ([op] + Shuts(id, d))[1..] == Shuts(id, d);
    ServerRunOne(L.Step(s, op), L.ShutdownOp(id));
  }

  lemma EstablishServer(w: System, id: L.Id, d: C.Conn)
    requires L.Shaped(w.server) && |w.polls| == Pollers(w.server.loops)
    ensures Establish(w, id, d).server == if d.state == C.Disconnecting then L.Step(w.server, L.ShutdownOp(id)) else w.server
  {
  }

  lemma ChangeServer(w: System, id: L.Id, c: C.Conn, d: C.Conn)
    requires L.Shaped(w.server) && |w.polls| == Pollers(w.server.loops)
    ensures Change(w, id, c, d).server ==
            if C.Live(c) && d.state == C.Disconnected then L.Step(w.server, L.CloseOp(id))
            else if c.state == C.Connected && d.state == C.Disconnecting then L.Step(w.server, L.ShutdownOp(id))
            else w.server
  {
  }

  lemma RunTaskServer(w: System, l: nat, acts: seq<C.Act>)
    requires Formed(w) && l < |w.server.io| && w.server.io[l] != []
    ensures RunTask(w, l, acts).server == L.Run(w.server, ServerOpsFor(w, RunIo(l, acts)))
  {
    TaskTaken(w, l);
    var id, s1 := w.server.io[l][0].id, L.Step(w.server, L.RunIo(l));
    match w.server.io[l][0] {
      case EstablishTask(_) =>
        var d := C.Step(w.conns[id], C.OpEstablish(acts));
        EstablishServer(w.(server := s1), id, d);
        ServerRunShuts(w.server, L.RunIo(l), id, d);
      case DestroyTask(_) =>
        ServerRunOne(w.server, L.RunIo(l));
        assert [L.RunIo(l)] + [] == [L.RunIo(l)];
    }
  }

  lemma AcceptServer(w: System, acts: seq<C.Act>)
    requires Formed(w)
    ensures Step(w, Accept(acts)).server == L.Run(w.server, ServerOpsFor(w, Accept(acts)))
  {
    var id, d := w.server.nextId, C.Step(C.FRESH, C.OpEstablish(acts));
    if w.server.loops == 0 {
      EstablishServer(AcceptOne(w), id, d);
      ServerRunShuts(w.server, L.AcceptOp, id, d);
    } else {
      ServerRunOne(w.server, L.AcceptOp);
      assert [L.AcceptOp] + [] == [L.AcceptOp];
    }
  }

  lemma StepServerIsRun(w: System, op: Op)
    requires Formed(w)
    ensures Step(w, op).server == L.Run(w.server, ServerOpsFor(w, op))
  {
    match op {
      case Accept(acts) => AcceptServer(w, acts);
      case RunIo(l, acts) =>
        if l < |w.server.io| && w.server.io[l] != [] {
          RunTaskServer(w, l, acts);
        } else {
          ServerRunOne(w.server, L.RunIo(l));
          assert [L.RunIo(l)] + [] == [L.RunIo(l)];
        }
      case RunBase => ServerRunOne(w.server, L.RunBase);
      case OnConn(id, op) => OnConnServer(w, id, op);
    }
  }

  lemma OnConnServer(w: System, id: L.Id, op: C.Op)
    requires Formed(w)
    ensures Step(w, OnConn(id, op)).server == L.Run(w.server, ServerOpsFor(w, OnConn(id, op)))
  {
    ServerRunOne(w.server, L.CloseOp(id));
    ServerRunOne(w.server, L.ShutdownOp(id));
    if id in w.conns { ChangeServer(w, id, w.conns[id], C.Step(w.conns[id], op)); }
  }

  function ServerOps(w: System, ops: seq<Op>): seq<L.Op>
    requires Formed(w)
    decreases ops
  {
    if ops == [] then []
    else
      StepForms(w, ops[0]);
      ServerOpsFor(w, ops[0]) + ServerOps(Step(w, ops[0]), ops[1..])
  }

  lemma {:induction false} ServerRunConcat(s: L.Server, a: seq<L.Op>, b: seq<L.Op>)
    requires L.Inv(s)
    ensures L.Inv(L.Run(s, a)) && L.Run(s, a + b) == L.Run(L.Run(s, a), b)
    decreases a
  {
    if a == [] {
      assert a + b == b;
    } else {
      L.StepKeeps(s, a[0]);
      assert (a + b)[0] == a[0] && (a + b)[1..] == a[1..] + b;
      ServerRunConcat(L.Step(s, a[0]), a[1..], b);
    }
  }

  /** The server in turn goes where the accepts, the loops' tasks and the closes and half-closes of
      its connections take the handshake: the theorems of ServerLifecycle hold of it. */
  lemma {:induction false} RunServerIsRun(w: System, ops: seq<Op>)
    requires Formed(w)
    ensures Run(w, ops).server == L.Run(w.server, ServerOps(w, ops))
    decreases ops
  {
    if ops != [] {
      StepForms(w, ops[0]);
      StepServerIsRun(w, ops[0]);
      RunServerIsRun(Step(w, ops[0]), ops[1..]);
      ServerRunConcat(w.server, ServerOpsFor(w, ops[0]), ServerOps(Step(w, ops[0]), ops[1..]));
    }
  }
}
