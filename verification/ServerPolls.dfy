/** What the pollers of the whole server are asked, and what they watch: on any run whose removals
    are of last slots exactly the open connections, each for what it asks; and two connections on
    one loop are enough to fail an assert otherwise. */
module ServerPolls {
  import opened Common
  import opened Channels
  import opened ServerSystems
  import C = Connections
  import S = ConnectionStream
  import K = ConnectionClose
  import L = ServerLifecycle
  import T = PollTables
  import D = PollDiscipline

  // ----- What the pollers are asked -----

  /** What the channel on `fd` has asked of the `l`-th poller. */
  function CallsOn(w: System, l: nat, fd: int): seq<PollCall> {
    if fd == WAKEUP_FD || (fd == LISTEN_FD && w.server.loops == 0) then [UpdateCall(READING)]
    else if fd > LISTEN_FD && LoopOf(w.server.loops, fd - 1) == l then CallsOf(w, fd - 1)
    else []
  }

  /** Each poller has been asked what the channels of its loop asked, in their order. */
  ghost predicate Polled(w: System) {
    && |w.polls| == Pollers(w.server.loops)
    && forall l, fd | 0 <= l < |w.polls| :: D.Project(w.polls[l], fd) == D.Trace(fd, CallsOn(w, l, fd))
  }

  lemma {:induction false} ProjectConcat(a: seq<T.Op>, b: seq<T.Op>, fd: int)
    ensures D.Project(a + b, fd) == D.Project(a, fd) + D.Project(b, fd)
  {
    if b == [] {
      assert a + b == a;
    } else {
      var n := |b| - 1;
      ProjectConcat(a, b[..n], fd);
      assert a + b == (a + b[..n]) + [b[n]] && b == b[..n] + [b[n]];
      ProjectSnocConcat(a, b[..n], b[n], fd);
    }
  }

  lemma ProjectSnocConcat(a: seq<T.Op>, b: seq<T.Op>, op: T.Op, fd: int)
    requires D.Project(a + b, fd) == D.Project(a, fd) + D.Project(b, fd)
    ensures D.Project(a + b + [op], fd) == D.Project(a, fd) + D.Project(b + [op], fd)
  {
    D.ProjectSnoc(a + b, op, fd);
    D.ProjectSnoc(b, op, fd);
  }

  lemma {:induction false} ProjectOne(ops: seq<T.Op>, owner: int, fd: int)
    requires forall i | 0 <= i < |ops| :: ops[i].fd == owner
    ensures D.Project(ops, fd) == if fd == owner then ops else []
  {
    if ops != [] {
      var n := |ops| - 1;
      ProjectOne(ops[..n], owner, fd);
      assert ops == ops[..n] + [ops[n]];
    }
  }

  lemma OwnPoll(asked: seq<T.Op>, fd: int, calls: seq<PollCall>, more: seq<PollCall>)
    requires D.Project(asked, fd) == D.Trace(fd, calls) && calls <= more
    ensures D.Project(asked + D.Trace(fd, more)[|calls|..], fd) == D.Trace(fd, more)
  {
    var rest := D.Trace(fd, more)[|calls|..];
    ProjectConcat(asked, rest, fd);
    ProjectOne(rest, fd, fd);
    TraceGrows(fd, calls, more);
  }

  lemma OthersPoll(asked: seq<T.Op>, fd: int, owner: int, more: seq<PollCall>, k: nat)
    requires fd != owner && k <= |more|
    ensures D.Project(asked + D.Trace(owner, more)[k..], fd) == D.Project(asked, fd)
  {
    var rest := D.Trace(owner, more)[k..];
    ProjectConcat(asked, rest, fd);
    ProjectOne(rest, owner, fd);
  }

  lemma PutAppends(w: System, id: L.Id, d: C.Conn, l: nat)
    requires |w.polls| == Pollers(w.server.loops) && CallsOf(w, id) <= d.calls && l < |w.polls|
    ensures |Put(w, id, d).polls| == |w.polls|
    ensures Put(w, id, d).polls[l] ==
            if l == LoopOf(w.server.loops, id) then w.polls[l] + D.Trace(Fd(id), d.calls)[|CallsOf(w, id)|..] else w.polls[l]
  {
  }

  lemma PutCalls(w: System, id: L.Id, d: C.Conn, l: nat, fd: int)
    requires |w.polls| == Pollers(w.server.loops) && id >= 1
    ensures CallsOn(Put(w, id, d), l, fd) ==
            if fd == Fd(id) && l == LoopOf(w.server.loops, id) then d.calls else CallsOn(w, l, fd)
  {
  }

  lemma PutPollsAt(w: System, id: L.Id, d: C.Conn, l: nat, fd: int)
    requires |w.polls| == Pollers(w.server.loops) && id >= 1 && CallsOf(w, id) <= d.calls && l < |w.polls|
    requires D.Project(w.polls[l], fd) == D.Trace(fd, CallsOn(w, l, fd))
    ensures |Put(w, id, d).polls| == |w.polls|
    ensures D.Project(Put(w, id, d).polls[l], fd) == D.Trace(fd, CallsOn(Put(w, id, d), l, fd))
  {
    PutAppends(w, id, d, l);
    PutCalls(w, id, d, l, fd);
    if l == LoopOf(w.server.loops, id) {
      if fd == Fd(id) {
        OwnPoll(w.polls[l], fd, CallsOf(w, id), d.calls);
      } else {
        OthersPoll(w.polls[l], fd, Fd(id), d.calls, |CallsOf(w, id)|);
      }
    }
  }

  lemma TraceGrows(fd: int, calls: seq<PollCall>, more: seq<PollCall>)
    requires calls <= more
    ensures D.Trace(fd, more) == D.Trace(fd, calls) + D.Trace(fd, more)[|calls|..]
  {
    assert D.Trace(fd, calls) == D.Trace(fd, more)[..|calls|];
  }

  lemma PutPolls(w: System, id: L.Id, d: C.Conn)
    requires Polled(w) && id >= 1 && CallsOf(w, id) <= d.calls
    ensures Polled(Put(w, id, d))
  {
    forall l, fd | 0 <= l < |w.polls|
      ensures D.Project(Put(w, id, d).polls[l], fd) == D.Trace(fd, CallsOn(Put(w, id, d), l, fd))
    {
      PutPollsAt(w, id, d, l, fd);
    }
  }

  lemma ServerPolls(w: System, s: L.Server)
    requires Polled(w) && s.loops == w.server.loops
    ensures Polled(w.(server := s))
  {
    forall l, fd | 0 <= l < |w.polls|
      ensures D.Project(w.polls[l], fd) == D.Trace(fd, CallsOn(w.(server := s), l, fd))
    {
      assert CallsOn(w.(server := s), l, fd) == CallsOn(w, l, fd);
    }
  }

  lemma EstablishPolls(w: System, id: L.Id, d: C.Conn)
    requires Formed(w) && Polled(w) && id in w.conns && w.conns[id].calls <= d.calls
    ensures Polled(Establish(w, id, d))
  {
    PutPolls(w, id, d);
    KnownStep(w.server, L.ShutdownOp(id));
    ServerPolls(Put(w, id, d), L.Step(w.server, L.ShutdownOp(id)));
  }

  lemma ChangePolls(w: System, id: L.Id, c: C.Conn, d: C.Conn)
    requires Formed(w) && Polled(w) && id in w.conns && w.conns[id].calls <= d.calls
    ensures Polled(Change(w, id, c, d))
  {
    if C.Live(c) && d.state == C.Disconnected {
      var d1 := if w.server.loops == 0 then C.Step(d, C.OpDestroy) else d;
      K.StepAsksMore(d, C.OpDestroy);
      PutPolls(w, id, d1);
      KnownStep(w.server, L.CloseOp(id));
      ServerPolls(Put(w, id, d1), L.Step(w.server, L.CloseOp(id)));
    } else {
      PutPolls(w, id, d);
      EstablishPolls(w, id, d);
    }
  }

  lemma RunTaskPolls(w: System, l: nat, acts: seq<C.Act>)
    requires Formed(w) && Polled(w) && l < |w.server.io| && w.server.io[l] != []
    ensures Polled(RunTask(w, l, acts))
  {
    var id := w.server.io[l][0].id;
    var w1 := w.(server := L.Step(w.server, L.RunIo(l)));
    TaskTaken(w, l);
    ServerPolls(w, w1.server);
    match w.server.io[l][0] {
      case EstablishTask(_) =>
        K.StepAsksMore(w.conns[id], C.OpEstablish(acts));
        EstablishPolls(w1, id, C.Step(w.conns[id], C.OpEstablish(acts)));
      case DestroyTask(_) =>
        K.StepAsksMore(w.conns[id], C.OpDestroy);
        PutPolls(w1, id, C.Step(w.conns[id], C.OpDestroy));
    }
  }

  lemma AcceptPolls(w: System, acts: seq<C.Act>)
    requires Formed(w) && Polled(w)
    ensures Polled(Step(w, Accept(acts)))
  {
    var id := w.server.nextId;
    assert id !in w.conns;
    PutPolls(w, id, C.FRESH);
    var w1 := AcceptOne(w);
    ServerPolls(Put(w, id, C.FRESH), w1.server);
    if w.server.loops == 0 {
      K.StepAsksMore(C.FRESH, C.OpEstablish(acts));
      EstablishPolls(w1, id, C.Step(C.FRESH, C.OpEstablish(acts)));
    }
  }

  lemma StepPolls(w: System, op: Op)
    requires Formed(w) && Polled(w)
    ensures Polled(Step(w, op))
  {
    match op {
      case Accept(acts) => AcceptPolls(w, acts);
      case RunIo(l, acts) => if l < |w.server.io| && w.server.io[l] != [] { RunTaskPolls(w, l, acts); }
      case RunBase =>
        KnownStep(w.server, L.RunBase);
        ServerPolls(w, L.Step(w.server, L.RunBase));
      case OnConn(id, op) =>
        if id in w.conns {
          K.StepAsksMore(w.conns[id], op);
          ChangePolls(w, id, w.conns[id], C.Step(w.conns[id], op));
        }
    }
  }

  lemma {:induction false} RunPolls(w: System, ops: seq<Op>)
    requires Formed(w) && Polled(w)
    ensures Polled(Run(w, ops))
    decreases ops
  {
    if ops != [] {
      StepForms(w, ops[0]);
      StepPolls(w, ops[0]);
      RunPolls(Step(w, ops[0]), ops[1..]);
    }
  }

  lemma StartedPolled(loops: nat)
    ensures Polled(Started(loops))
  {
    var w := Started(loops);
    forall l, fd | 0 <= l < |w.polls|
      ensures D.Project(w.polls[l], fd) == D.Trace(fd, CallsOn(w, l, fd))
    {
      var wakeup := T.Register(WAKEUP_FD, READING);
      ProjectOne([wakeup], WAKEUP_FD, fd);
      if loops == 0 {
        var listen := T.Register(LISTEN_FD, READING);
        assert w.polls[l] == [wakeup] + [listen];
        D.ProjectSnoc([wakeup], listen, fd);
      }
    }
  }

  // ----- What the pollers watch -----

  /** The channels of the loop that want anything: its wakeup channel, the listening one if the
      loop is the only one, and every open connection, each with its interest. */
  ghost function Wanted(w: System, l: nat): set<(int, Interest)> {
    {(WAKEUP_FD, READING)} + (if w.server.loops == 0 then {(LISTEN_FD, READING)} else {}) + OpenOn(w, l)
  }

  ghost function OpenOn(w: System, l: nat): set<(int, Interest)> {
    (set id | id in w.conns && LoopOf(w.server.loops, id) == l && C.Live(w.conns[id]) :: (Fd(id), w.conns[id].events))
  }

  ghost predicate Wants(w: System, l: nat, fd: int, events: Interest) {
    var calls := CallsOn(w, l, fd);
    calls != [] && calls[|calls| - 1] == UpdateCall(events) && events != NO_INTEREST
  }

  lemma OpenOnIff(w: System, l: nat, id: L.Id, events: Interest)
    ensures (Fd(id), events) in OpenOn(w, l) <==>
            id in w.conns && LoopOf(w.server.loops, id) == l && C.Live(w.conns[id]) && events == w.conns[id].events
  {
  }

  /** The loop's own channels. */
  lemma OwnIsWanted(w: System, l: nat, fd: int, events: Interest)
    requires fd <= LISTEN_FD && 0 !in w.conns
    ensures Wants(w, l, fd, events) <==> (fd, events) in Wanted(w, l)
  {
    assert (fd, events) !in OpenOn(w, l);
  }

  lemma OpenIsWanted(w: System, l: nat, id: L.Id, events: Interest)
    requires id >= 1 && (id in w.conns ==> K.Discipline(w.conns[id]))
    ensures Wants(w, l, Fd(id), events) <==> (Fd(id), events) in Wanted(w, l)
  {
    OpenOnIff(w, l, id, events);
    assert CallsOn(w, l, Fd(id)) == if LoopOf(w.server.loops, id) == l then CallsOf(w, id) else [];
    if id in w.conns { ConnWants(w.conns[id], events); }
  }

  /** What of the agreement matters to the pollers. */
  ghost predicate Orderly(w: System) {
    0 !in w.conns && forall id | id in w.conns :: K.Discipline(w.conns[id])
  }

  lemma TiedIsOrderly(w: System)
    requires Tied(w)
    ensures Orderly(w)
  {
    forall id | id in w.conns
      ensures K.Discipline(w.conns[id])
    {
      assert TiedAt(w, id);
    }
  }

  lemma WantsIsWanted(w: System, l: nat, fd: int, events: Interest)
    requires Orderly(w)
    ensures Wants(w, l, fd, events) <==> (fd, events) in Wanted(w, l)
  {
    if fd > LISTEN_FD {
      OpenIsWanted(w, l, fd - 1, events);
    } else {
      OwnIsWanted(w, l, fd, events);
    }
  }

  lemma ConnWants(c: C.Conn, events: Interest)
    requires K.Discipline(c)
    ensures c.calls != [] && c.calls[|c.calls| - 1] == UpdateCall(events) && events != NO_INTEREST
            <==> C.Live(c) && events == c.events
  {
  }

  lemma CallsOnAreDisciplined(w: System, l: nat, fd: int)
    requires Tied(w)
    ensures D.Disciplined(CallsOn(w, l, fd))
    ensures CallsOn(w, l, fd) != [] ==> 0 <= fd <= w.server.nextId
  {
    if fd > LISTEN_FD && fd - 1 in w.conns {
      assert TiedAt(w, fd - 1);
      D.KeptIsDisciplined(w.conns[fd - 1]);
    }
  }

  lemma {:induction false} Mentioned(ops: seq<T.Op>, i: nat)
    requires i < |ops|
    ensures D.Project(ops, ops[i].fd) != []
  {
    var n := |ops| - 1;
    if i < n {
      Mentioned(ops[..n], i);
    }
  }

  /** Requests of disciplined channels only, and only of those the loop has. */
  lemma PollAlternates(w: System, l: nat)
    requires Tied(w) && Polled(w) && l < |w.polls|
    ensures D.AllAlternate(w.polls[l])
    ensures forall i | 0 <= i < |w.polls[l]| :: 0 <= w.polls[l][i].fd <= w.server.nextId
  {
    var asked := w.polls[l];
    forall fd
      ensures D.Alternates(D.Project(asked, fd))
    {
      CallsOnAreDisciplined(w, l, fd);
      D.DisciplinedAlternates(fd, CallsOn(w, l, fd));
    }
    forall i | 0 <= i < |asked|
      ensures 0 <= asked[i].fd <= w.server.nextId
    {
      Mentioned(asked, i);
      CallsOnAreDisciplined(w, l, asked[i].fd);
    }
  }

  lemma PollIsAdmissible(w: System, l: nat)
    requires Tied(w) && Polled(w) && l < |w.polls| && D.ErasesLast(w.polls[l])
    ensures T.RunAdmissible(T.EMPTY, w.polls[l]) && D.HoldsLast(w.polls[l])
    ensures forall i | 0 <= i < |w.polls[l]| :: 0 <= w.polls[l][i].fd <= w.server.nextId
  {
    PollAlternates(w, l);
    D.AlternatingIsAdmissible(w.polls[l]);
  }

  lemma PollWatchesInterests(w: System, l: nat)
    requires Tied(w) && Polled(w) && l < |w.polls| && D.ErasesLast(w.polls[l])
    ensures T.RunAdmissible(T.EMPTY, w.polls[l]) && D.HoldsLast(w.polls[l])
    ensures var t := T.Run(T.EMPTY, w.polls[l]).value; T.Watched(t) == T.Interests(t)
  {
    PollIsAdmissible(w, l);
    LivesAreDisciplined(w, l);
    LivesAreHistories(w, l);
    D.PollerWatchesInterests(w.polls[l], LivesOn(w, l));
  }

  /** Each descriptor of the loop has had one life so far. */
  function LivesOn(w: System, l: nat): map<int, seq<seq<PollCall>>> {
    map fd | 0 <= fd <= w.server.nextId :: [CallsOn(w, l, fd)]
  }

  lemma LivesAreDisciplined(w: System, l: nat)
    requires Tied(w)
    ensures forall fd, k | fd in LivesOn(w, l) && 0 <= k < |LivesOn(w, l)[fd]| :: D.Disciplined(LivesOn(w, l)[fd][k])
  {
    forall fd, k | fd in LivesOn(w, l) && 0 <= k < |LivesOn(w, l)[fd]|
      ensures D.Disciplined(LivesOn(w, l)[fd][k])
    {
      CallsOnAreDisciplined(w, l, fd);
    }
  }

  lemma LivesAreHistories(w: System, l: nat)
    requires Polled(w) && l < |w.polls|
    ensures forall fd | fd in LivesOn(w, l) :: D.Project(w.polls[l], fd) <= D.History(fd, LivesOn(w, l)[fd])
  {
    forall fd | fd in LivesOn(w, l)
      ensures D.Project(w.polls[l], fd) <= D.History(fd, LivesOn(w, l)[fd])
    {
      OneLife(fd, CallsOn(w, l, fd));
    }
  }

  lemma OneLife(fd: int, calls: seq<PollCall>)
    ensures D.History(fd, [calls]) == D.Trace(fd, calls)
  {
    assert [calls][..0] == [];
    assert D.History(fd, []) + D.Trace(fd, calls) == D.Trace(fd, calls);
  }

  lemma InterestsAreWanted(w: System, l: nat)
    requires Orderly(w) && Polled(w) && l < |w.polls|
    requires T.RunAdmissible(T.EMPTY, w.polls[l]) && D.HoldsLast(w.polls[l])
    ensures T.Interests(T.Run(T.EMPTY, w.polls[l]).value) == Wanted(w, l)
  {
    assert T.Sized(T.Run(T.EMPTY, w.polls[l]).value) by { T.RunKeeps(w.polls[l]); }
    SameWanted(w, l);
  }

  lemma SameWanted(w: System, l: nat)
    requires Orderly(w) && Polled(w) && l < |w.polls|
    requires T.RunAdmissible(T.EMPTY, w.polls[l]) && D.HoldsLast(w.polls[l])
    requires T.Sized(T.Run(T.EMPTY, w.polls[l]).value)
    ensures T.Interests(T.Run(T.EMPTY, w.polls[l]).value) == Wanted(w, l)
  {
    forall p: (int, Interest)
      ensures p in T.Interests(T.Run(T.EMPTY, w.polls[l]).value) <==> p in Wanted(w, l)
    {
      WantsIsWanted(w, l, p.0, p.1);
      TableWants(w, l, p.0, p.1);
    }
  }

  lemma TableWants(w: System, l: nat, fd: int, events: Interest)
    requires Polled(w) && l < |w.polls|
    requires T.RunAdmissible(T.EMPTY, w.polls[l]) && D.HoldsLast(w.polls[l]) && T.Sized(T.Run(T.EMPTY, w.polls[l]).value)
    ensures (fd, events) in T.Interests(T.Run(T.EMPTY, w.polls[l]).value) <==> Wants(w, l, fd, events)
  {
    D.InterestIsLast(w.polls[l], fd, events);
    D.TraceLast(fd, CallsOn(w, l, fd), events);
  }

  /** In every run that meets its demands a poller has stayed consistent, and failed no assert, if
      and only if every removal was of its last slot. */
  lemma PollersConsistentIff(loops: nat, ops: seq<Op>, l: nat)
    requires RunMet(Started(loops), ops)
    requires l < |Run(Started(loops), ops).polls|
    ensures var asked := Run(Started(loops), ops).polls[l];
            D.ConsistentThroughout(asked) <==> D.ErasesLast(asked)
  {
    RunFromStart(loops, ops);
    PollAlternates(Run(Started(loops), ops), l);
    D.ConsistentIff(Run(Started(loops), ops).polls[l]);
  }

  lemma RunFromStart(loops: nat, ops: seq<Op>)
    requires RunMet(Started(loops), ops)
    ensures Tied(Run(Started(loops), ops)) && Polled(Run(Started(loops), ops))
  {
    StartedTied(loops);
    StartedPolled(loops);
    RunTies(Started(loops), ops);
    RunPolls(Started(loops), ops);
  }

  /** In every such run a poller whose removals were all of its last slot has failed no assert, is
      consistent, and watches exactly the loop's own channels and its open connections, each for
      what it asks. */
  lemma PollersSafe(loops: nat, ops: seq<Op>, l: nat)
    requires RunMet(Started(loops), ops)
    requires l < |Run(Started(loops), ops).polls| && D.ErasesLast(Run(Started(loops), ops).polls[l])
    ensures var w := Run(Started(loops), ops);
            var t := T.Run(T.EMPTY, w.polls[l]);
            t.Some? && T.Inv(t.value) && T.Watched(t.value) == Wanted(w, l)
  {
    RunFromStart(loops, ops);
    var w := Run(Started(loops), ops);
    PollWatchesInterests(w, l);
    T.RunKeeps(w.polls[l]);
    TiedIsOrderly(w);
    InterestsAreWanted(w, l);
  }

  // ----- Two connections on one loop -----

  /** The user's callbacks do nothing, and then the peer ends its stream. */
  const ESTABLISHED := C.SetEvents(C.FRESH.(state := C.Connected), READING)

  function PeerEnds(id: L.Id): Op {
    OnConn(id, C.OpDispatch(NO_EVENTS.(pollin := true), C.Eof, 0))
  }

  lemma PutAsks(w: System, id: L.Id, d: C.Conn, asked: seq<T.Op>)
    requires w.server.loops == 0 && |w.polls| == 1
    requires D.Trace(Fd(id), d.calls) == D.Trace(Fd(id), CallsOf(w, id)) + asked
    ensures Put(w, id, d) == w.(conns := w.conns[id := d], polls := [w.polls[0] + asked])
  {
    assert |D.Trace(Fd(id), CallsOf(w, id))| == |CallsOf(w, id)| && |D.Trace(Fd(id), d.calls)| == |d.calls|;
    assert D.Trace(Fd(id), d.calls)[|CallsOf(w, id)|..] == asked;
  }

  lemma EstablishedIs()
    ensures C.Step(C.FRESH, C.OpEstablish([])) == ESTABLISHED && S.OpSafe(C.FRESH, C.OpEstablish([]))
    ensures ESTABLISHED.state == C.Connected && ESTABLISHED.calls == [UpdateCall(READING)]
  {
  }

  lemma AcceptOneAsks(w: System)
    requires Formed(w) && w.server.loops == 0
    ensures var w1, id := AcceptOne(w), w.server.nextId;
            w1.conns == w.conns[id := C.FRESH] && w1.polls == w.polls && w1.server.nextId == id + 1
  {
    assert w.server.nextId !in w.conns;
    PutAsks(w, w.server.nextId, C.FRESH, []);
    assert w.polls[0] + [] == w.polls[0] && [w.polls[0]] == w.polls;
  }

  lemma EstablishAsks(w: System, id: L.Id, before: map<L.Id, C.Conn>)
    requires L.Shaped(w.server) && w.server.loops == 0 && |w.polls| == 1 && w.conns == before[id := C.FRESH]
    ensures Establish(w, id, ESTABLISHED) ==
            w.(conns := before[id := ESTABLISHED], polls := [w.polls[0] + [T.Register(Fd(id), READING)]])
  {
    PutAsks(w, id, ESTABLISHED, [T.Register(Fd(id), READING)]);
    assert w.conns[id := ESTABLISHED] == before[id := ESTABLISHED];
  }

  lemma AcceptsInline(w: System)
    requires Formed(w) && w.server.loops == 0
    ensures Step(w, Accept([])) == Establish(AcceptOne(w), w.server.nextId, ESTABLISHED)
    ensures Safe(w, Accept([])) && Met(w, Accept([]))
  {
    EstablishedIs();
  }

  lemma AcceptAsks(w: System)
    requires Formed(w) && w.server.loops == 0
    ensures var w1, id := Establish(AcceptOne(w), w.server.nextId, ESTABLISHED), w.server.nextId;
            && w1.conns == w.conns[id := ESTABLISHED] && w1.server.loops == 0 && w1.server.nextId == id + 1
            && w1.polls == [w.polls[0] + [T.Register(Fd(id), READING)]]
  {
    AcceptOneAsks(w);
    EstablishAsks(AcceptOne(w), w.server.nextId, w.conns);
  }

  /** What is left of the connection. */
  const GONE := ESTABLISHED.(state := C.Disconnected, events := NO_INTEREST, closes := 1,
                             calls := [UpdateCall(READING), UpdateCall(NO_INTEREST), RemoveCall])

  lemma EndIsServed(id: L.Id)
    ensures S.OpSafe(ESTABLISHED, PeerEnds(id).op) && K.Served(ESTABLISHED, PeerEnds(id).op)
    ensures var d := C.Step(ESTABLISHED, PeerEnds(id).op);
            C.Live(ESTABLISHED) && d.state == C.Disconnected && C.Step(d, C.OpDestroy) == GONE
  {
    assert C.Step(ESTABLISHED, PeerEnds(id).op) == C.HandleClose(ESTABLISHED);
  }

  lemma PeerEndsAsks(w: System, id: L.Id)
    requires Formed(w) && w.server.loops == 0 && id in w.conns && w.conns[id] == ESTABLISHED
    ensures var w1 := Step(w, PeerEnds(id));
            && w1.conns == w.conns[id := GONE] && w1.server.loops == 0
            && w1.polls == [w.polls[0] + [T.Modify(Fd(id), NO_INTEREST), T.Erase(Fd(id))]]
    ensures Safe(w, PeerEnds(id)) && Met(w, PeerEnds(id))
  {
    EndIsServed(id);
    PutAsks(w, id, GONE, [T.Modify(Fd(id), NO_INTEREST), T.Erase(Fd(id))]);
    StepForms(w, PeerEnds(id));
  }

  const FIRST_FOUR: seq<T.Op> := [T.Register(0, READING), T.Register(1, READING), T.Register(2, READING), T.Register(3, READING)]

  lemma OneOpen()
    ensures var w := Step(Started(0), Accept([]));
            && w.server.loops == 0 && w.server.nextId == 2 && w.polls == [FIRST_FOUR[..3]]
            && w.conns == map[1 := ESTABLISHED]
    ensures Safe(Started(0), Accept([])) && Met(Started(0), Accept([]))
  {
    var w := Started(0);
    AcceptsInline(w);
    AcceptAsks(w);
    assert w.polls[0] + [T.Register(2, READING)] == FIRST_FOUR[..3];
  }

  lemma AnotherOpen(w: System)
    requires Formed(w) && w.server.loops == 0 && w.server.nextId == 2 && w.polls == [FIRST_FOUR[..3]]
    requires w.conns == map[1 := ESTABLISHED]
    ensures var w1 := Step(w, Accept([]));
            w1.server.loops == 0 && w1.polls == [FIRST_FOUR] && w1.conns == map[1 := ESTABLISHED, 2 := ESTABLISHED]
    ensures Safe(w, Accept([])) && Met(w, Accept([]))
  {
    AcceptsInline(w);
    AcceptAsks(w);
    assert FIRST_FOUR[..3] + [T.Register(3, READING)] == FIRST_FOUR;
  }

  const BOTH_ASKED: seq<T.Op> :=
    FIRST_FOUR + [T.Modify(2, NO_INTEREST), T.Erase(2)] + [T.Modify(3, NO_INTEREST), T.Erase(3)]

  lemma RunFirst(w: System, op: Op, ops: seq<Op>)
    requires Formed(w)
    ensures Formed(Step(w, op)) && Run(w, [op] + ops) == Run(Step(w, op), ops)
    ensures Safe(w, op) && Met(w, op) && RunMet(Step(w, op), ops) ==> RunMet(w, [op] + ops)
  {
    StepForms(w, op);
    assert ([op] + ops)[1..] == ops;
  }

  lemma BothEnd(w: System)
    requires Formed(w) && w.server.loops == 0 && w.polls == [FIRST_FOUR]
    requires w.conns == map[1 := ESTABLISHED, 2 := ESTABLISHED]
    ensures RunMet(w, [PeerEnds(1)] + ([PeerEnds(2)] + []))
    ensures Run(w, [PeerEnds(1)] + ([PeerEnds(2)] + [])).polls == [BOTH_ASKED]
  {
    PeerEndsAsks(w, 1);
    RunFirst(w, PeerEnds(1), [PeerEnds(2)] + []);
    SecondEnds(Step(w, PeerEnds(1)));
  }

  lemma SecondEnds(w: System)
    requires Formed(w) && w.server.loops == 0 && 2 in w.conns && w.conns[2] == ESTABLISHED
    requires w.polls == [FIRST_FOUR + [T.Modify(2, NO_INTEREST), T.Erase(2)]]
    ensures RunMet(w, [PeerEnds(2)] + []) && Run(w, [PeerEnds(2)] + []).polls == [BOTH_ASKED]
  {
    PeerEndsAsks(w, 2);
    RunFirst(w, PeerEnds(2), []);
  }

  /** Two connections are accepted, the peer of the first ends its stream, and then that of the
      second. */
  const TWO_CLOSES: seq<Op> := [Accept([])] + ([Accept([])] + ([PeerEnds(1)] + ([PeerEnds(2)] + [])))

  lemma TwoCloses()
    ensures RunMet(Started(0), TWO_CLOSES) && Run(Started(0), TWO_CLOSES).polls == [BOTH_ASKED]
  {
    OneOpen();
    RunFirst(Started(0), Accept([]), [Accept([])] + ([PeerEnds(1)] + ([PeerEnds(2)] + [])));
    ThenAnother(Step(Started(0), Accept([])));
  }

  lemma ThenAnother(w: System)
    requires Formed(w) && w.server.loops == 0 && w.server.nextId == 2 && w.polls == [FIRST_FOUR[..3]]
    requires w.conns == map[1 := ESTABLISHED]
    ensures RunMet(w, [Accept([])] + ([PeerEnds(1)] + ([PeerEnds(2)] + [])))
    ensures Run(w, [Accept([])] + ([PeerEnds(1)] + ([PeerEnds(2)] + []))).polls == [BOTH_ASKED]
  {
    AnotherOpen(w);
    RunFirst(w, Accept([]), [PeerEnds(1)] + ([PeerEnds(2)] + []));
    BothEnd(Step(w, Accept([])));
  }

  /** Every demand is met, and the poller fails an assert at the second close. */
  lemma SecondCloseFails()
    ensures RunMet(Started(0), TWO_CLOSES)
    ensures |Run(Started(0), TWO_CLOSES).polls| == 1 && T.Run(T.EMPTY, Run(Started(0), TWO_CLOSES).polls[0]) == None
  {
    TwoCloses();
    SecondCloseAborts();
  }

  lemma FourRegistered()
    ensures T.RunAdmissible(T.EMPTY, FIRST_FOUR)
    ensures var t := T.Run(T.EMPTY, FIRST_FOUR);
            t.Some? && |t.value.slots| == 4 && t.value.index == map[0 := 0, 1 := 1, 2 := 2, 3 := 3]
  {
    var a, b := [FIRST_FOUR[0]], [FIRST_FOUR[0], FIRST_FOUR[1]];
    var c := [FIRST_FOUR[0], FIRST_FOUR[1], FIRST_FOUR[2]];
    assert a + [FIRST_FOUR[1]] == b && b + [FIRST_FOUR[2]] == c && c + [FIRST_FOUR[3]] == FIRST_FOUR;
    T.RunHead(T.EMPTY, FIRST_FOUR[0]);
    T.RunSnoc(T.EMPTY, a, FIRST_FOUR[1]);
    T.RunSnoc(T.EMPTY, b, FIRST_FOUR[2]);
    T.RunSnoc(T.EMPTY, c, FIRST_FOUR[3]);
  }

  lemma SecondCloseAborts()
    ensures T.Run(T.EMPTY, BOTH_ASKED) == None
  {
    FourRegistered();
    T.CloseAboveFails(FIRST_FOUR, 2, 3);
    var upTo := FIRST_FOUR + [T.Modify(2, NO_INTEREST)] + [T.Erase(2)] + [T.Modify(3, NO_INTEREST)];
    T.RunSnoc(T.EMPTY, upTo, T.Erase(3));
    assert upTo + [T.Erase(3)] == BOTH_ASKED;
  }
}
