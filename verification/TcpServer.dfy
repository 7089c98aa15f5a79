/** The TcpServer object with the loops it hands work to. Every call is proved to take it where
    the state machine of module ServerLifecycle goes; preconditions are the source's asserts. */
module TcpServers {
  import opened Common
  import L = ServerLifecycle
  import C = Connections
  import opened ThreadPools

  class TcpServer {
    const threadPool: EventLoopThreadPool
    var nextConnId: nat
    var connections: set<L.Id>
    // The connections' own records, and the queues of the base loop and of the I/O loops.
    var conns: map<L.Id, L.Info>
    var baseQueue: seq<L.Id>
    var ioQueues: seq<seq<L.IoTask>>
    // connectDestroyed has met a connection still open (never, by L.LifecycleSafe).
    ghost var reclosed: bool

    constructor (pool: EventLoopThreadPool)
      requires pool.Valid() && pool.next == 0 && forall i | 0 <= i < |pool.loops| :: pool.loops[i] == i
      ensures threadPool == pool && Valid() && View() == L.Started(|pool.loops|)
    {
      threadPool := pool;
      nextConnId := 1;
      connections := {};
      conns := map[];
      baseQueue := [];
      ioQueues := seq(|pool.loops|, i => []);
      reclosed := false;
    }

    /** I/O loops are numbered by their place in the pool. */
    ghost predicate Valid()
      reads this, threadPool
    {
      threadPool.Valid() && forall i | 0 <= i < |threadPool.loops| :: threadPool.loops[i] == i
    }

    ghost function View(): L.Server
      reads this, threadPool
    {
      L.Server(|threadPool.loops|, threadPool.next, nextConnId, connections, conns, baseQueue, ioQueues, false, reclosed)
    }

    method NewConnection()
      requires Valid() && L.Shaped(View()) && nextConnId !in conns
      modifies this, threadPool`next
      ensures Valid() && View() == L.NewConnection(old(View()))
    {
      var ioLoop := threadPool.GetNextLoop();
      var id := nextConnId;
      nextConnId := nextConnId + 1;
      connections := connections + {id};
      if threadPool.loops == [] {
        conns := conns[id := L.Info(C.Connecting, 0, false, false, 0)];
        ConnectEstablished(id);
      } else {
        conns := conns[id := L.Info(C.Connecting, ioLoop, false, false, 0)];
        ioQueues := ioQueues[ioLoop := ioQueues[ioLoop] + [L.EstablishTask(id)]];
      }
    }

    method ConnectEstablished(id: L.Id)
      requires id in conns && conns[id].state == C.Connecting
      modifies this`conns
      ensures View() == L.Establish(old(View()), id)
    {
      conns := conns[id := conns[id].(state := C.Connected, reading := true, registered := true)];
    }

    method HandleClose(id: L.Id)
      requires Valid() && L.Shaped(View()) && id in conns && L.IsLive(conns[id])
      requires !L.HandleClose(View(), id).broken
      modifies this
      ensures View() == L.HandleClose(old(View()), id)
    {
      var info := conns[id];
      conns := conns[id := info.(state := C.Disconnected, reading := false, closes := info.closes + 1)];
      RemoveConnection(id);
    }

    method RemoveConnection(id: L.Id)
      requires Valid() && Placed(id)
      requires !L.CloseCallback(View(), id).broken
      modifies this
      ensures View() == L.CloseCallback(old(View()), id)
      decreases if L.IsLive(conns[id]) then 1 else 0, 2
    {
      if threadPool.loops == [] {
        RemoveConnectionInLoop(id);
      } else {
        baseQueue := baseQueue + [id];
      }
    }

    method RemoveConnectionInLoop(id: L.Id)
      requires Valid() && Placed(id)
      requires !L.RemoveConnectionInLoop(View(), id).broken
      modifies this
      ensures View() == L.RemoveConnectionInLoop(old(View()), id)
      decreases if L.IsLive(conns[id]) then 1 else 0, 1
    {
      connections := connections - {id};
      if threadPool.loops == [] {
        ConnectDestroyed(id);
      } else {
        var ioLoop := conns[id].loop;
        ioQueues := ioQueues[ioLoop := ioQueues[ioLoop] + [L.DestroyTask(id)]];
      }
    }

    method ConnectDestroyed(id: L.Id)
      requires Valid() && Placed(id)
      requires !L.Destroy(View(), id).broken
      modifies this
      ensures View() == L.Destroy(old(View()), id)
      decreases if L.IsLive(conns[id]) then 1 else 0, 0
    {
      if L.IsLive(conns[id]) {
        var info := conns[id];
        conns := conns[id := info.(state := C.Disconnected, reading := false, closes := info.closes + 1)];
        reclosed := true;
        RemoveConnection(id);
      }
      conns := conns[id := conns[id].(registered := false)];
    }

    /** The connection exists, on a loop that has a queue. */
    predicate Placed(id: L.Id)
      reads this, threadPool
    {
      && id in conns
      && |ioQueues| == |threadPool.loops|
      && (threadPool.loops != [] ==> conns[id].loop < |threadPool.loops|)
    }
  }
}
