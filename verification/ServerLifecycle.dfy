/** The close handshake of TcpServer.cpp over the base loop and any number of I/O loops:
    newConnection, connectEstablished, handleClose, removeConnectionInLoop, connectDestroyed,
    handed between the loops' queues in every interleaving, over any number of connections. */
module ServerLifecycle {
  import opened Common
  import opened Connections
  import ThreadPools

  type Id = nat

  /** What an I/O loop's queue holds for the server. */
  datatype IoTask = EstablishTask(id: Id) | DestroyTask(id: Id)

  /**
   * The part of a TcpConnection the handshake turns on. `reading`: its channel has interest;
   * `registered`: its channel is in the poller; `closes` counts its close callbacks.
   */
  datatype Info = Info(state: State, loop: nat, reading: bool, registered: bool, closes: nat)

  /**
   * `loops` is the number of I/O threads; with none, the base loop does their work inline.
   * `base` is the base loop's queue of removeConnectionInLoop calls, `io` the I/O loops' queues.
   * `broken`: the assert of removeConnectionInLoop, connectEstablished or handleClose has failed,
   * or a channel was taken from the poller while it was on or not in it.
   * `reclosed`: connectDestroyed met a connection still open.
   */
  datatype Server = Server(
    loops: nat, next: nat, nextId: Id, registry: set<Id>, conns: map<Id, Info>,
    base: seq<Id>, io: seq<seq<IoTask>>, broken: bool, reclosed: bool)

  function Started(loops: nat): (s: Server)
    ensures Inv(s)
  {
    assert loops > 0 ==> 0 % loops == 0;
    Server(loops, 0, 1, {}, map[], [], seq(loops, i => []), false, false)
  }

  function Fail(s: Server): Server {
    s.(broken := true)
  }

  predicate IsLive(i: Info) {
    i.state == Connected || i.state == Disconnecting
  }

  function Established(i: Info): Info {
    i.(state := Connected, reading := true, registered := true)
  }

  function HalfClosing(i: Info): Info {
    i.(state := Disconnecting)
  }

  function Closed(i: Info): Info {
    i.(state := Disconnected, reading := false, closes := i.closes + 1)
  }

  function Unregistered(i: Info): Info {
    i.(registered := false)
  }

  function Put(s: Server, id: Id, info: Info): Server {
    s.(conns := s.conns[id := info])
  }

  function Enqueue(s: Server, loop: nat, task: IoTask): Server
    requires loop < |s.io|
  {
    s.(io := s.io[loop := s.io[loop] + [task]])
  }

  /** TcpConnection::connectEstablished. */
  function Establish(s: Server, id: Id): Server
    requires id in s.conns
  {
    var i := s.conns[id];
    if i.state != Connecting then Fail(s)
    else Put(s, id, Established(i))
  }

  /** TcpServer::newConnection. */
  function NewConnection(s: Server): Server
    requires |s.io| == s.loops && (s.loops > 0 ==> s.next < s.loops)
  {
    var id := s.nextId;
    var s1 := s.(nextId := id + 1, registry := s.registry + {id});
    if s.loops == 0 then
      Establish(Put(s1, id, Info(Connecting, 0, false, false, 0)), id)
    else
      var next := if s.next + 1 >= s.loops then 0 else s.next + 1;
      Enqueue(Put(s1, id, Info(Connecting, s.next, false, false, 0)).(next := next), s.next, EstablishTask(id))
  }

  /** TcpConnection::connectDestroyed, with its branch for a connection that is still open. */
  function Destroy(s: Server, id: Id): Server
    requires id in s.conns && |s.io| == s.loops && (s.loops > 0 ==> s.conns[id].loop < s.loops)
    decreases if IsLive(s.conns[id]) then 1 else 0, 0
  {
    var i := s.conns[id];
    var s1 := if IsLive(i)
              then CloseCallback(Put(s, id, Closed(i)).(reclosed := true), id)
              else s;
    var i1 := s1.conns[id];
    if s1.broken || i1.reading || !i1.registered then Fail(s1)
    else Put(s1, id, Unregistered(i1))
  }

  /** TcpServer::removeConnection, called by the connection's close callback. */
  function CloseCallback(s: Server, id: Id): (r: Server)
    requires id in s.conns && |s.io| == s.loops && (s.loops > 0 ==> s.conns[id].loop < s.loops)
    ensures id in r.conns
    decreases if IsLive(s.conns[id]) then 1 else 0, 2
  {
    if s.loops == 0 then RemoveConnectionInLoop(s, id) else s.(base := s.base + [id])
  }

  /** TcpServer::removeConnectionInLoop. */
  function RemoveConnectionInLoop(s: Server, id: Id): (r: Server)
    requires id in s.conns && |s.io| == s.loops && (s.loops > 0 ==> s.conns[id].loop < s.loops)
    ensures id in r.conns
    decreases if IsLive(s.conns[id]) then 1 else 0, 1
  {
    if id !in s.registry then Fail(s)
    else
      var s1 := s.(registry := s.registry - {id});
      if s.loops == 0 then Destroy(s1, id) else Enqueue(s1, s.conns[id].loop, DestroyTask(id))
  }

  /** TcpConnection::handleClose, on the connection's own loop. */
  function HandleClose(s: Server, id: Id): Server
    requires id in s.conns && |s.io| == s.loops && (s.loops > 0 ==> s.conns[id].loop < s.loops)
  {
    var i := s.conns[id];
    if !IsLive(i) then Fail(s)
    else CloseCallback(Put(s, id, Closed(i)), id)
  }

  datatype Op = AcceptOp | CloseOp(id: Id) | ShutdownOp(id: Id) | RunIo(loop: nat) | RunBase

  /** Queues are consistent with the loops there are, and mention their own connections. */
  predicate Shaped(s: Server) {
    && |s.io| == s.loops
    && (if s.loops > 0 then s.next < s.loops else s.base == [])
    && (forall id | id in s.conns && s.loops > 0 :: s.conns[id].loop < s.loops)
    && (forall l | 0 <= l < |s.io| :: QueueOf(s, l, s.io[l]))
    && (forall id | id in s.base :: id in s.conns)
  }

  predicate QueueOf(s: Server, l: nat, q: seq<IoTask>) {
    forall t | t in q :: t.id in s.conns && s.conns[t.id].loop == l
  }

  /** A close reaches a connection only through a channel with interest; any thread may ask a
      connected one to shut down; each loop runs the head of its queue. Sends change nothing the
      server keeps; module ServerSystems adds them, with the connections themselves. */
  function Step(s: Server, op: Op): Server
    requires Shaped(s)
  {
    if s.broken then s
    else match op
      case AcceptOp => NewConnection(s)
      case CloseOp(id) => if id in s.conns && s.conns[id].reading then HandleClose(s, id) else s
      case ShutdownOp(id) =>
        if id in s.conns && s.conns[id].state == Connected then Put(s, id, HalfClosing(s.conns[id])) else s
      case RunIo(l) =>
        if l >= |s.io| || s.io[l] == [] then s
        else
          var s1 := s.(io := s.io[l := s.io[l][1..]]);
          (match s.io[l][0]
           case EstablishTask(id) => Establish(s1, id)
           case DestroyTask(id) => Destroy(s1, id))
      case RunBase =>
        if s.base == [] then s else RemoveConnectionInLoop(s.(base := s.base[1..]), s.base[0])
  }

  function Run(s: Server, ops: seq<Op>): Server
    requires Inv(s)
    decreases ops
  {
    if ops == [] then s
    else
      StepKeeps(s, ops[0]);
      Run(Step(s, ops[0]), ops[1..])
  }

  // ----- One phase token per connection -----

  datatype Phase = EstablishPending | Open | RemovePending | DestroyPending | Destroyed

  ghost function PhaseOf(s: Server, id: Id): Phase
    requires id in s.conns
  {
    var i := s.conns[id];
    match i.state
    case Connecting => EstablishPending
    case Connected => Open
    case Disconnecting => Open
    case Disconnected => if id in s.registry then RemovePending else if i.registered then DestroyPending else Destroyed
  }

  /** How often the queue of the connection's loop mentions a task. */
  ghost function Count(s: Server, id: Id, task: IoTask): nat
    requires id in s.conns
  {
    if s.conns[id].loop < |s.io| then multiset(s.io[s.conns[id].loop])[task] else 0
  }

  /** The connection's phase fixes its flags, its close count, its place in the registry and
      the one queue entry, if any, that will carry it on. */
  ghost predicate Good(s: Server, id: Id)
    requires id in s.conns
  {
    var i, p := s.conns[id], PhaseOf(s, id);
    && (id in s.registry <==> p == EstablishPending || p == Open || p == RemovePending)
    && (i.reading <==> p == Open)
    && (i.registered <==> p == Open || p == RemovePending || p == DestroyPending)
    && i.closes == Bit(p == RemovePending || p == DestroyPending || p == Destroyed)
    && Count(s, id, EstablishTask(id)) == Bit(p == EstablishPending)
    && multiset(s.base)[id] == Bit(p == RemovePending)
    && Count(s, id, DestroyTask(id)) == Bit(p == DestroyPending)
    && (s.loops > 0 ==> i.loop == (id - 1) % s.loops)
  }

  /** Nothing that concerns the connection differs. */
  ghost predicate Same(s: Server, s1: Server, id: Id)
    requires id in s.conns
  {
    && id in s1.conns && s1.conns[id] == s.conns[id] && s1.loops == s.loops
    && (id in s1.registry <==> id in s.registry)
    && multiset(s1.base)[id] == multiset(s.base)[id]
    && Count(s1, id, EstablishTask(id)) == Count(s, id, EstablishTask(id))
    && Count(s1, id, DestroyTask(id)) == Count(s, id, DestroyTask(id))
  }

  lemma Dequeue<T>(q: seq<T>, x: T)
    requires q != []
    ensures multiset(q)[x] == multiset(q[1..])[x] + Bit(q[0] == x)
    ensures forall t | t in q[1..] :: t in q
  {
    assert q == [q[0]] + q[1..];
  }

  /** Only what concerns `id` may differ. */
  ghost predicate Moved(s: Server, s1: Server, id: Id) {
    && s1.loops == s.loops && |s1.io| == |s.io|
    && !s1.broken && !s1.reclosed
    && s1.conns.Keys == s.conns.Keys + {id}
    && s1.registry <= s.registry + {id}
    && (id in s.conns ==> s1.conns[id].loop == s.conns[id].loop)
    && (forall j | j in s.conns && j != id :: Same(s, s1, j))
    && (forall j | j in s1.base :: j in s.base || j == id)
    && (forall l | 0 <= l < |s1.io| :: QueueMoved(s, s1, id, l))
  }

  ghost predicate QueueMoved(s: Server, s1: Server, id: Id, l: nat)
    requires l < |s1.io| && l < |s.io| && id in s1.conns
  {
    forall t | t in s1.io[l] :: t in s.io[l] || (t.id == id && s1.conns[id].loop == l)
  }

  /** The connection is old or the next one, and the cursor has followed. */
  ghost predicate Counted(s: Server, s1: Server, id: Id)
    requires id in s1.conns
  {
    && (id in s.conns || id == s.nextId)
    && s1.nextId == (if id in s.conns then s.nextId else s.nextId + 1)
    && if s.loops > 0
       then s1.conns[id].loop < s.loops && s1.next < s.loops && s1.next == (s1.nextId - 1) % s.loops
       else s1.base == []
  }

  lemma MovedKeeps(s: Server, s1: Server, id: Id)
    requires Inv(s) && Moved(s, s1, id) && Good(s1, id) && Counted(s, s1, id)
    ensures Inv(s1)
  {
    MovedShape(s, s1, id);
    forall j | j in s1.conns
      ensures Good(s1, j)
    {
      if j != id { assert Good(s, j) && Same(s, s1, j); }
    }
  }

  lemma MovedShape(s: Server, s1: Server, id: Id)
    requires Shaped(s) && Moved(s, s1, id)
    requires if s.loops > 0 then s1.next < s.loops else s1.base == []
    requires s.loops > 0 ==> s1.conns[id].loop < s.loops
    ensures Shaped(s1)
  {
    forall j | j in s1.conns && s.loops > 0
      ensures s1.conns[j].loop < s.loops
    {
      if j != id { assert Same(s, s1, j); }
    }
    forall l | 0 <= l < |s1.io|
      ensures QueueOf(s1, l, s1.io[l])
    {
      forall t | t in s1.io[l]
        ensures t.id in s1.conns && s1.conns[t.id].loop == l
      {
        assert QueueMoved(s, s1, id, l);
        if t in s.io[l] {
          assert QueueOf(s, l, s.io[l]);
          if t.id != id { assert Same(s, s1, t.id); }
        }
      }
    }
  }

  ghost predicate Inv(s: Server) {
    && Shaped(s)
    && !s.broken && !s.reclosed
    && s.nextId >= 1
    && (s.loops > 0 ==> s.next == (s.nextId - 1) % s.loops)
    && (forall id :: id in s.conns <==> 1 <= id < s.nextId)
    && s.registry <= s.conns.Keys
    && forall id | id in s.conns :: Good(s, id)
  }

  /** The connection an operation concerns, if it does anything. */
  function Concerns(s: Server, op: Op): Option<Id> {
    match op
    case AcceptOp => Some(s.nextId)
    case CloseOp(id) => if id in s.conns && s.conns[id].reading then Some(id) else None
    case ShutdownOp(id) => if id in s.conns && s.conns[id].state == Connected then Some(id) else None
    case RunIo(l) => if l < |s.io| && s.io[l] != [] then Some(s.io[l][0].id) else None
    case RunBase => if s.base != [] then Some(s.base[0]) else None
  }

  lemma StepKeeps(s: Server, op: Op)
    requires Inv(s)
    ensures Inv(Step(s, op))
  {
    if Concerns(s, op).Some? {
      StepMoves(s, op);
      MovedKeeps(s, Step(s, op), Concerns(s, op).value);
    }
  }

  /** Every step moves one connection from one phase to the next and leaves the others alone. */
  lemma StepMoves(s: Server, op: Op)
    requires Inv(s) && Concerns(s, op).Some?
    ensures var s1, id := Step(s, op), Concerns(s, op).value;
            Moved(s, s1, id) && Good(s1, id) && Counted(s, s1, id)
  {
    match op {
      case AcceptOp => AcceptMoves(s); AcceptIsGood(s);
      case CloseOp(id) => CloseMoves(s, id);
      case ShutdownOp(id) => ShutdownMoves(s, id);
      case RunIo(l) => RunIoMoves(s, l); RunIoIsGoodStep(s, l);
      case RunBase => RunBaseMoves(s);
    }
  }

  /** Queues only mention connections that exist. */
  lemma NotMentioned(s: Server, id: Id)
    requires Inv(s) && id !in s.conns
    ensures multiset(s.base)[id] == 0
    ensures forall l | 0 <= l < |s.io| :: multiset(s.io[l])[EstablishTask(id)] == 0 && multiset(s.io[l])[DestroyTask(id)] == 0
  {
    assert id !in s.base;
    forall l | 0 <= l < |s.io|
      ensures multiset(s.io[l])[EstablishTask(id)] == 0 && multiset(s.io[l])[DestroyTask(id)] == 0
    {
      assert QueueOf(s, l, s.io[l]);
      assert EstablishTask(id) !in s.io[l] && DestroyTask(id) !in s.io[l];
    }
  }

  lemma AcceptIsGood(s: Server)
    requires Inv(s)
    ensures s.nextId in NewConnection(s).conns
    ensures Good(NewConnection(s), s.nextId) && Counted(s, NewConnection(s), s.nextId)
  {
    NotMentioned(s, s.nextId);
    if s.loops > 0 {
      ThreadPools.SuccMod(s.nextId - 1, s.loops);
    }
  }

  lemma AcceptMoves(s: Server)
    requires Inv(s)
    ensures Moved(s, NewConnection(s), s.nextId)
  {
    var s1, id := NewConnection(s), s.nextId;
    assert s1.conns.Keys == s.conns.Keys + {id};
    assert s1.base == s.base;
    if s.loops > 0 {
      var l := s.next;
      assert s1.io == s.io[l := s.io[l] + [EstablishTask(id)]];
      EnqueueMoves(s, s1, id, l, EstablishTask(id));
    } else {
      forall j | j in s.conns && j != id
        ensures Same(s, s1, j)
      {
      }
    }
  }

  /** Appending a task to an I/O queue concerns only the connection it names. */
  lemma EnqueueMoves(s: Server, s1: Server, id: Id, l: nat, task: IoTask)
    requires l < |s.io| && task.id == id
    requires s1.io == s.io[l := s.io[l] + [task]] && s1.base == s.base && s1.loops == s.loops
    requires id in s1.conns && s1.conns[id].loop == l
    requires forall j | j in s.conns && j != id :: j in s1.conns && s1.conns[j] == s.conns[j]
    requires forall j | j != id :: j in s1.registry <==> j in s.registry
    ensures forall j | j in s.conns && j != id :: Same(s, s1, j)
    ensures forall l' | 0 <= l' < |s1.io| :: QueueMoved(s, s1, id, l')
  {
    assert multiset(s1.io[l]) == multiset(s.io[l]) + multiset{task};
  }

  lemma ShutdownMoves(s: Server, id: Id)
    requires Inv(s) && id in s.conns && s.conns[id].state == Connected
    ensures var s1 := Step(s, ShutdownOp(id)); Moved(s, s1, id) && Good(s1, id) && Counted(s, s1, id)
  {
    assert Good(s, id);
    ShutdownOnlyMoves(s, id);
    ShutdownIsGood(s, id);
    ShutdownCounted(s, id);
  }

  lemma ShutdownCounted(s: Server, id: Id)
    requires id in s.conns && (s.loops > 0 ==> s.conns[id].loop < s.loops && s.next < s.loops)
    requires s.nextId >= 1 && (s.loops > 0 ==> s.next == (s.nextId - 1) % s.loops) && (s.loops == 0 ==> s.base == [])
    ensures Counted(s, Put(s, id, HalfClosing(s.conns[id])), id)
  {
  }

  lemma ShutdownOnlyMoves(s: Server, id: Id)
    requires !s.broken && !s.reclosed && id in s.conns
    ensures Moved(s, Put(s, id, HalfClosing(s.conns[id])), id)
  {
    Unmoved(s, id);
    Rewritten(s, s, HalfClosing(s.conns[id]), id);
  }

  lemma ShutdownIsGood(s: Server, id: Id)
    requires id in s.conns && Good(s, id) && s.conns[id].state == Connected
    ensures Good(Put(s, id, HalfClosing(s.conns[id])), id)
  {
  }

  lemma Unmoved(s: Server, id: Id)
    requires !s.broken && !s.reclosed && id in s.conns
    ensures Moved(s, s, id)
  {
    assert s.conns.Keys == s.conns.Keys + {id};
  }

  /** With I/O threads the close callback queues the removal for the base loop. */
  lemma CloseMovesPooled(s: Server, id: Id)
    requires Shaped(s) && !s.broken && !s.reclosed && id in s.conns && IsLive(s.conns[id]) && s.loops > 0
    ensures Moved(s, HandleClose(s, id), id)
  {
    BaseMoves(s, id);
    Rewritten(s, s.(base := s.base + [id]), Closed(s.conns[id]), id);
  }

  lemma CloseIsGoodPooled(s: Server, id: Id)
    requires Inv(s) && id in s.conns && s.conns[id].reading && s.loops > 0
    ensures Good(HandleClose(s, id), id) && Counted(s, HandleClose(s, id), id)
  {
    assert Good(s, id);
    CloseIs(s, id);
    CloseRequested(s, id);
    CloseCounted(s, id);
  }

  lemma CloseCounted(s: Server, id: Id)
    requires id in s.conns && s.loops > 0 && s.conns[id].loop < s.loops && s.next < s.loops && s.nextId >= 1
    requires s.next == (s.nextId - 1) % s.loops
    ensures Counted(s, Put(s, id, Closed(s.conns[id])).(base := s.base + [id]), id)
  {
  }

  lemma CloseIs(s: Server, id: Id)
    requires id in s.conns && |s.io| == s.loops && s.loops > 0 && s.conns[id].loop < s.loops && IsLive(s.conns[id])
    ensures HandleClose(s, id) == Put(s, id, Closed(s.conns[id])).(base := s.base + [id])
  {
  }

  lemma CloseRequested(s: Server, id: Id)
    requires id in s.conns && Good(s, id) && s.conns[id].reading
    ensures Good(Put(s, id, Closed(s.conns[id])).(base := s.base + [id]), id)
  {
    assert multiset(s.base + [id]) == multiset(s.base) + multiset{id};
  }

  lemma BaseMoves(s: Server, id: Id)
    requires !s.broken && !s.reclosed && id in s.conns
    ensures Moved(s, s.(base := s.base + [id]), id)
  {
    var s1 := s.(base := s.base + [id]);
    assert s1.conns.Keys == s.conns.Keys + {id};
    assert multiset(s1.base) == multiset(s.base) + multiset{id};
  }

  /** Without them the whole handshake runs inline, inside handleClose. */
  lemma CloseInline(s: Server, id: Id)
    requires Inv(s) && id in s.conns && s.conns[id].reading && s.loops == 0
    ensures HandleClose(s, id) ==
            Put(s, id, Unregistered(Closed(s.conns[id])))
              .(registry := s.registry - {id})
  {
    assert Good(s, id);
    var s1 := Put(s, id, Closed(s.conns[id]));
    var s2 := s1.(registry := s.registry - {id});
    assert HandleClose(s, id) == RemoveConnectionInLoop(s1, id) == Destroy(s2, id);
    assert !IsLive(s2.conns[id]);
    assert Destroy(s2, id).conns == s.conns[id := Unregistered(Closed(s.conns[id]))];
  }

  lemma CloseMoves(s: Server, id: Id)
    requires Inv(s) && id in s.conns && s.conns[id].reading
    ensures var s1 := HandleClose(s, id); Moved(s, s1, id) && Good(s1, id) && Counted(s, s1, id)
  {
    if s.loops > 0 {
      assert Good(s, id);
      CloseMovesPooled(s, id);
      CloseIsGoodPooled(s, id);
    } else {
      assert Good(s, id);
      CloseInline(s, id);
      var s1 := HandleClose(s, id);
      assert s1.conns.Keys == s.conns.Keys + {id};
    }
  }

  lemma HeadIsKnown(s: Server, l: nat)
    requires Inv(s) && l < |s.io| && s.io[l] != []
    ensures var id := s.io[l][0].id; id in s.conns && s.conns[id].loop == l && Good(s, id)
  {
    assert QueueOf(s, l, s.io[l]) && s.io[l][0] in s.io[l];
  }

  /** Taking the head of an I/O queue concerns only the connection it names. */
  lemma DequeuedSame(s: Server, l: nat, j: Id)
    requires l < |s.io| && s.io[l] != [] && j in s.conns && j != s.io[l][0].id
    ensures Same(s, s.(io := s.io[l := s.io[l][1..]]), j)
  {
    Dequeue(s.io[l], EstablishTask(j));
    Dequeue(s.io[l], DestroyTask(j));
  }

  lemma DequeuedIo(s: Server, l: nat)
    requires Inv(s) && l < |s.io| && s.io[l] != []
    ensures var id := s.io[l][0].id;
            && id in s.conns && s.conns[id].loop == l && Good(s, id)
            && Moved(s, s.(io := s.io[l := s.io[l][1..]]), id)
  {
    HeadIsKnown(s, l);
    DequeuedMoves(s, l);
  }

  lemma DequeuedMoves(s: Server, l: nat)
    requires !s.broken && !s.reclosed && l < |s.io| && s.io[l] != [] && s.io[l][0].id in s.conns
    ensures Moved(s, s.(io := s.io[l := s.io[l][1..]]), s.io[l][0].id)
  {
    var id, s1 := s.io[l][0].id, s.(io := s.io[l := s.io[l][1..]]);
    assert s1.conns.Keys == s.conns.Keys + {id};
    forall j | j in s.conns && j != id
      ensures Same(s, s1, j)
    {
      DequeuedSame(s, l, j);
    }
    forall l' | 0 <= l' < |s1.io|
      ensures QueueMoved(s, s1, id, l')
    {
      Dequeue(s.io[l], s.io[l][0]);
    }
  }

  /** The connection's record after its loop has run a task for it. */
  function AfterTask(i: Info, task: IoTask): Info {
    match task
    case EstablishTask(_) => Established(i)
    case DestroyTask(_) => Unregistered(i)
  }

  lemma RunIoIs(s: Server, l: nat)
    requires Inv(s) && l < |s.io| && s.io[l] != [] && s.io[l][0].id in s.conns
    requires Good(s, s.io[l][0].id) && s.conns[s.io[l][0].id].loop == l
    ensures var q := s.io[l];
            Step(s, RunIo(l)) == Put(s.(io := s.io[l := q[1..]]), q[0].id, AfterTask(s.conns[q[0].id], q[0]))
    ensures PhaseOf(s, s.io[l][0].id) == if s.io[l][0].EstablishTask? then EstablishPending else DestroyPending
  {
    var q := s.io[l];
    Dequeue(q, q[0]);
    if q[0].DestroyTask? {
      DestroyClosed(s.(io := s.io[l := q[1..]]), q[0].id);
    }
  }

  lemma RunIoMoves(s: Server, l: nat)
    requires Inv(s) && l < |s.io| && s.io[l] != []
    ensures Moved(s, Step(s, RunIo(l)), s.io[l][0].id)
  {
    DequeuedIo(s, l);
    RunIoIs(s, l);
    var q := s.io[l];
    Rewritten(s, s.(io := s.io[l := q[1..]]), AfterTask(s.conns[q[0].id], q[0]), q[0].id);
  }

  lemma RunIoIsGoodStep(s: Server, l: nat)
    requires Inv(s) && l < |s.io| && s.io[l] != []
    ensures var s1, id := Step(s, RunIo(l)), s.io[l][0].id; id in s1.conns && Good(s1, id) && Counted(s, s1, id)
  {
    HeadIsKnown(s, l);
    RunIoIs(s, l);
    RunIoIsGood(s, l);
  }

  lemma RunIoIsGood(s: Server, l: nat)
    requires l < |s.io| && s.io[l] != [] && s.io[l][0].id in s.conns
    requires var id := s.io[l][0].id; Good(s, id) && s.conns[id].loop == l
    requires PhaseOf(s, s.io[l][0].id) == if s.io[l][0].EstablishTask? then EstablishPending else DestroyPending
    ensures var q := s.io[l];
            Good(Put(s.(io := s.io[l := q[1..]]), q[0].id, AfterTask(s.conns[q[0].id], q[0])), q[0].id)
  {
    var q := s.io[l];
    Dequeue(q, EstablishTask(q[0].id));
    Dequeue(q, DestroyTask(q[0].id));
  }

  /** connectDestroyed on a connection already closed only takes its channel from the poller. */
  lemma DestroyClosed(s: Server, id: Id)
    requires id in s.conns && |s.io| == s.loops && (s.loops > 0 ==> s.conns[id].loop < s.loops)
    requires s.conns[id].state == Disconnected && !s.conns[id].reading && s.conns[id].registered && !s.broken
    ensures Destroy(s, id) == Put(s, id, Unregistered(s.conns[id]))
  {
  }

  /** Rewriting the connection's own record on top of a queue change keeps the frame. */
  lemma Rewritten(s: Server, s0: Server, info: Info, id: Id)
    requires Moved(s, s0, id) && id in s.conns && info.loop == s.conns[id].loop
    ensures Moved(s, Put(s0, id, info), id)
  {
    var s1 := Put(s0, id, info);
    assert s1.conns.Keys == s.conns.Keys + {id};
    forall j | j in s.conns && j != id
      ensures Same(s, s1, j)
    {
      assert Same(s, s0, j);
    }
    forall l | 0 <= l < |s1.io|
      ensures QueueMoved(s, s1, id, l)
    {
      assert QueueMoved(s, s0, id, l);
    }
  }

  lemma RunBaseMoves(s: Server)
    requires Inv(s) && s.base != []
    ensures var s1, id := Step(s, RunBase), s.base[0]; Moved(s, s1, id) && Good(s1, id) && Counted(s, s1, id)
  {
    var id := s.base[0];
    assert id in s.base;
    assert Good(s, id);
    Dequeue(s.base, id);
    RemovalMoves(s);
    RemovalIsGood(s);
  }

  lemma RemovalMoves(s: Server)
    requires Inv(s) && s.base != [] && s.loops > 0 && s.base[0] in s.registry
    ensures Moved(s, Step(s, RunBase), s.base[0])
  {
    RemovalIs(s);
    RemovedMoves(s);
  }

  lemma RemovalIs(s: Server)
    requires Shaped(s) && !s.broken && s.base != [] && s.loops > 0 && s.base[0] in s.registry && s.base[0] in s.conns
    ensures s.conns[s.base[0]].loop < |s.io|
    ensures var id := s.base[0];
            Step(s, RunBase) == Enqueue(s.(base := s.base[1..], registry := s.registry - {id}), s.conns[id].loop, DestroyTask(id))
  {
  }

  lemma RemovedMoves(s: Server)
    requires !s.broken && !s.reclosed && s.base != [] && s.base[0] in s.conns && s.conns[s.base[0]].loop < |s.io|
    ensures var id := s.base[0];
            var s0 := s.(base := s.base[1..], registry := s.registry - {id});
            Moved(s, Enqueue(s0, s.conns[id].loop, DestroyTask(id)), id)
  {
    var id := s.base[0];
    var l := s.conns[id].loop;
    var s0 := s.(base := s.base[1..], registry := s.registry - {id});
    var s1 := Enqueue(s0, l, DestroyTask(id));
    EnqueueMoves(s0, s1, id, l, DestroyTask(id));
    assert s1.conns.Keys == s.conns.Keys + {id};
    forall j | j in s.conns && j != id
      ensures Same(s, s1, j)
    {
      assert Same(s0, s1, j);
      Dequeue(s.base, j);
    }
    Dequeue(s.base, id);
    forall l' | 0 <= l' < |s1.io|
      ensures QueueMoved(s, s1, id, l')
    {
      assert QueueMoved(s0, s1, id, l');
    }
  }

  lemma RemovalIsGood(s: Server)
    requires Inv(s) && s.base != [] && s.loops > 0 && s.base[0] in s.conns && Good(s, s.base[0])
    requires PhaseOf(s, s.base[0]) == RemovePending
    ensures Good(Step(s, RunBase), s.base[0]) && Counted(s, Step(s, RunBase), s.base[0])
  {
    var id := s.base[0];
    var q := s.io[s.conns[id].loop];
    Dequeue(s.base, id);
    assert multiset(q + [DestroyTask(id)]) == multiset(q) + multiset{DestroyTask(id)};
  }

  // ----- What this means -----

  ghost function TokensHeld(s: Server, id: Id): nat
    requires id in s.conns
  {
    Count(s, id, EstablishTask(id)) + Bit(IsLive(s.conns[id])) + multiset(s.base)[id]
    + Count(s, id, DestroyTask(id)) + Bit(s.conns[id].state == Disconnected && id !in s.registry && !s.conns[id].registered)
  }

  lemma {:induction false} RunKeeps(s: Server, ops: seq<Op>)
    requires Inv(s)
    ensures Inv(Run(s, ops)) && Run(s, ops).loops == s.loops
    decreases ops
  {
    if ops != [] {
      StepKeeps(s, ops[0]);
      if Concerns(s, ops[0]).Some? { StepMoves(s, ops[0]); }
      RunKeeps(Step(s, ops[0]), ops[1..]);
    }
  }

  /** A connectDestroyed that is queued is for a closed connection, still in its poller and off. */
  lemma QueuedDestroyMeetsClosed(s: Server, l: nat, id: Id)
    requires Inv(s) && l < |s.io| && DestroyTask(id) in s.io[l]
    ensures id in s.conns && s.conns[id].state == Disconnected && s.conns[id].registered && !s.conns[id].reading
  {
    assert QueueOf(s, l, s.io[l]);
    assert Good(s, id);
    assert multiset(s.io[l])[DestroyTask(id)] > 0;
  }

  /** Met open, it would run the close callback and be noticed. */
  lemma OpenDestroyIsNoticed(s: Server, id: Id)
    requires id in s.conns && |s.io| == s.loops && s.loops > 0 && s.conns[id].loop < s.loops && IsLive(s.conns[id])
    ensures Destroy(s, id).reclosed && Destroy(s, id).base == s.base + [id]
  {
  }

  /** In every interleaving of the loops, over any number of connections and I/O threads, and as
      long as nobody switches a closed connection's interest on again (ServerSystems.SystemSafe):
      the registry has the connection that is removed, a connection is established once and
      closed only while open, its channel is registered and off when it is taken from the poller,
      connectDestroyed never meets an open connection, each connection holds one phase token and
      has at most one close callback, and its loop is the round-robin choice. */
  lemma LifecycleSafe(loops: nat, ops: seq<Op>)
    ensures var s := Run(Started(loops), ops);
            && !s.broken && !s.reclosed
            && forall id | id in s.conns ::
                 && TokensHeld(s, id) == 1
                 && s.conns[id].closes <= 1
                 && (loops > 0 ==> s.conns[id].loop == (id - 1) % loops)
    ensures var s := Run(Started(loops), ops);
            forall l, id | 0 <= l < |s.io| && DestroyTask(id) in s.io[l] ::
              id in s.conns && s.conns[id].state == Disconnected && s.conns[id].registered && !s.conns[id].reading
  {
    RunKeeps(Started(loops), ops);
    var s := Run(Started(loops), ops);
    forall l, id | 0 <= l < |s.io| && DestroyTask(id) in s.io[l]
      ensures id in s.conns && s.conns[id].state == Disconnected && s.conns[id].registered && !s.conns[id].reading
    {
      QueuedDestroyMeetsClosed(s, l, id);
    }
    forall id | id in s.conns
      ensures TokensHeld(s, id) == 1 && s.conns[id].closes <= 1 && (loops > 0 ==> s.conns[id].loop == (id - 1) % loops)
    {
      assert Good(s, id);
    }
  }

  /** Once every queue has run dry, the registry is exactly the set of open connections, and
      every other connection has been closed once and taken out of its poller. */
  lemma DrainedRegistry(loops: nat, ops: seq<Op>)
    requires var s := Run(Started(loops), ops); s.base == [] && forall l | 0 <= l < |s.io| :: s.io[l] == []
    ensures var s := Run(Started(loops), ops);
            forall id | id in s.conns ::
              && (id in s.registry <==> IsLive(s.conns[id]))
              && (id !in s.registry ==> s.conns[id].closes == 1 && !s.conns[id].registered)
  {
    RunKeeps(Started(loops), ops);
    var s := Run(Started(loops), ops);
    forall id | id in s.conns
      ensures id in s.registry <==> IsLive(s.conns[id])
      ensures id !in s.registry ==> s.conns[id].closes == 1 && !s.conns[id].registered
    {
      assert Good(s, id);
    }
  }

  function Rank(p: Phase): nat {
    match p
    case EstablishPending => 0
    case Open => 1
    case RemovePending => 2
    case DestroyPending => 3
    case Destroyed => 4
  }

  /** No connection ever goes back: each step moves the one it concerns forward, by exactly
      one phase when there are I/O threads, unless it only asks for a half-close. */
  lemma PhasesAdvance(s: Server, op: Op, id: Id)
    requires Inv(s) && id in s.conns
    ensures id in Step(s, op).conns
    ensures var r, r1 := Rank(PhaseOf(s, id)), Rank(PhaseOf(Step(s, op), id));
            if op.ShutdownOp? || Concerns(s, op) != Some(id) then r1 == r
            else if s.loops > 0 then r1 == r + 1
            else r == 1 && r1 == 4
  {
    if Concerns(s, op) == Some(id) {
      ConcernedAdvances(s, op, id);
    } else {
      OthersStay(s, op, id);
    }
  }

  lemma OthersStay(s: Server, op: Op, id: Id)
    requires Inv(s) && id in s.conns && Concerns(s, op) != Some(id)
    ensures Same(s, Step(s, op), id)
  {
    if Concerns(s, op).Some? {
      StepMoves(s, op);
    }
  }

  lemma ConcernedAdvances(s: Server, op: Op, id: Id)
    requires Inv(s) && id in s.conns && Concerns(s, op) == Some(id)
    ensures id in Step(s, op).conns
    ensures var r, r1 := Rank(PhaseOf(s, id)), Rank(PhaseOf(Step(s, op), id));
            if op.ShutdownOp? then r1 == r else if s.loops > 0 then r1 == r + 1 else r == 1 && r1 == 4
  {
    match op {
      case AcceptOp =>
      case CloseOp(_) => CloseAdvances(s, id);
      case ShutdownOp(_) =>
      case RunIo(l) => RunIoAdvances(s, l);
      case RunBase => RunBaseAdvances(s);
    }
  }

  lemma CloseAdvances(s: Server, id: Id)
    requires Inv(s) && id in s.conns && s.conns[id].reading
    ensures var s1 := HandleClose(s, id);
            && id in s1.conns && PhaseOf(s, id) == Open
            && PhaseOf(s1, id) == if s.loops > 0 then RemovePending else Destroyed
  {
    assert Good(s, id);
    if s.loops == 0 { CloseInline(s, id); }
  }

  lemma RunIoAdvances(s: Server, l: nat)
    requires Inv(s) && l < |s.io| && s.io[l] != []
    ensures var s1, id := Step(s, RunIo(l)), s.io[l][0].id;
            && id in s.conns && id in s1.conns
            && Rank(PhaseOf(s1, id)) == Rank(PhaseOf(s, id)) + 1
  {
    HeadIsKnown(s, l);
    RunIoIs(s, l);
  }

  lemma RunBaseAdvances(s: Server)
    requires Inv(s) && s.base != []
    ensures var s1, id := Step(s, RunBase), s.base[0];
            && id in s.conns && id in s1.conns && s.loops > 0
            && PhaseOf(s, id) == RemovePending && PhaseOf(s1, id) == DestroyPending
  {
    var id := s.base[0];
    assert id in s.base;
    assert Good(s, id);
    Dequeue(s.base, id);
  }
}
