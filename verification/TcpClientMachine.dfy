/** TcpClient.cpp over its Connector: connecting, losing and regaining the one connection. */
module TcpClientMachine {
  import opened Common
  import opened Connectors

  /** `wanted` and `retry` are connect_ and retry_; `open` are the connections whose close is
      still to come. `sockets`, `established` and `destroyed` list, in order, the sockets that
      connections were made of and the connections that were established and destroyed; `shutdowns`
      those that disconnect() has asked to shut down.
      `broken`: an assert of the client or of its connector has failed. */
  datatype Client = Client(
    k: Connector, wanted: bool, retry: bool, connection: Option<nat>, open: set<nat>, nextConnId: nat,
    sockets: seq<nat>, established: seq<nat>, destroyed: seq<nat>,
    shutdowns: seq<nat>, broken: bool)

  const NEW_CLIENT := Client(IDLE, false, false, None, {}, 1, [], [], [], [], false)

  /** Handlers of the loop's thread, and calls of connect() and stop() there (`inLoop`) or by
      another thread. The attempts and requests are what the environment answers. */
  datatype Op =
    | ConnectOp(inLoop: bool, a: Attempts)
    | StopOp(inLoop: bool, during: seq<Request>, next: Attempts)
    | DisconnectOp
    | WantOp                                                       // the flag set by a connect() during a sleep
    | EnableRetryOp
    | WritableOp
    | ErrorOp(during: seq<Request>, next: Attempts)
    | ClosedOp(conn: nat, a: Attempts)
    | RunTaskOp(during: seq<Request>, next: Attempts)

  function With(c: Client, k: Connector): Client {
    c.(k := k, broken := c.broken || k.broken)
  }

  /** newConnection, called by the connector with the socket it hands over; connectEstablished
      runs inline. */
  function NewConnection(c: Client, fd: nat): Client {
    var id := c.nextConnId;
    c.(connection := Some(id), open := c.open + {id}, nextConnId := id + 1,
       sockets := c.sockets + [fd], established := c.established + [id])
  }

  function OnWritable(c: Client): Client {
    var k := HandleWrite(c.k);
    if |k.handed| > |c.k.handed| then NewConnection(With(c, k), k.handed[|k.handed| - 1]) else With(c, k)
  }

  /** removeConnection, the connection's close callback; connectDestroyed runs inline, before any
      restart. */
  function RemoveConnection(c: Client, conn: nat, a: Attempts): Client {
    if c.connection != Some(conn) then c.(broken := true)
    else
      var c1 := c.(connection := None, open := c.open - {conn}, destroyed := c.destroyed + [conn]);
      if c1.retry && c1.wanted then With(c1, Restart(c1.k, a)) else c1
  }

  /** disconnect(): the connector is left alone. */
  function Disconnect(c: Client): Client {
    c.(wanted := false,
       shutdowns := match c.connection case None => c.shutdowns case Some(id) => c.shutdowns + [id])
  }

  function Step(c: Client, op: Op): Client {
    if c.broken then c
    else match op
      case ConnectOp(inLoop, a) =>
        if inLoop then With(c.(wanted := true), StartInLoop(c.k.(connect := true), a))
        else With(c.(wanted := true), Post(c.k, [StartRequest]))
      case StopOp(inLoop, during, next) =>
        if inLoop then With(c.(wanted := false), StopInLoop(c.k.(connect := false), during, next))
        else With(c.(wanted := false), Post(c.k, [StopRequest]))
      case DisconnectOp => Disconnect(c)
      case WantOp => c.(wanted := true)
      case EnableRetryOp => c.(retry := true)
      case WritableOp => OnWritable(c)
      case ErrorOp(during, next) => With(c, HandleError(c.k, during, next))
      case ClosedOp(conn, a) => if conn in c.open then RemoveConnection(c, conn, a) else c
      case RunTaskOp(during, next) =>
        if c.k.queue == [] then c
        else
          var k := c.k.(queue := c.k.queue[1..]);
          (match c.k.queue[0]
           case StartRequest => With(c, StartInLoop(k, next))
           case StopRequest => With(c, StopInLoop(k, during, next)))
  }

  function Run(c: Client, ops: seq<Op>): Client
    decreases ops
  {
    if ops == [] then c else Run(Step(c, ops[0]), ops[1..])
  }

  /** One connection at a time, and only while the connector believes itself connected. */
  ghost predicate ClientInv(c: Client) {
    && !c.broken
    && Inv(c.k)
    && (c.connection.Some? ==> c.k.state == Connected)
    && c.open == (if c.connection.Some? then {c.connection.value} else {})
    && c.nextConnId == |c.k.handed| + 1
    && c.sockets == c.k.handed
    && Lived(c)
  }

  /** Connections are numbered as they are established, and destroyed in that order, each before
      the next is established. */
  ghost predicate Lived(c: Client) {
    && |c.established| == c.nextConnId - 1
    && (forall i | 0 <= i < |c.established| :: c.established[i] == i + 1)
    && c.established == c.destroyed + (match c.connection case None => [] case Some(id) => [id])
  }

  /** The operation makes startInLoop run on behalf of start(). */
  predicate Starts(c: Client, op: Op) {
    (op.ConnectOp? && op.inLoop) || (op.RunTaskOp? && c.k.queue != [] && c.k.queue[0] == StartRequest)
  }

  lemma WithKeeps(c: Client, k: Connector)
    requires ClientInv(c) && Inv(k) && k.handed == c.k.handed
    requires c.connection.Some? ==> k.state == Connected
    ensures ClientInv(With(c, k)) && !With(c, k).broken
  {
  }

  lemma StartOutcome(c: Client, k: Connector, a: Attempts)
    requires ClientInv(c) && k == c.k.(connect := k.connect, queue := k.queue)
    ensures StartInLoop(k, a).broken <==> c.k.state != Disconnected
    ensures c.k.state == Disconnected ==> ClientInv(With(c, StartInLoop(k, a)))
  {
    if c.k.state == Disconnected {
      assert Inv(k);
      StartKeeps(k, a);
      WithKeeps(c, StartInLoop(k, a));
    }
  }

  lemma StopOutcome(c: Client, k: Connector, during: seq<Request>, next: Attempts)
    requires ClientInv(c) && k == c.k.(connect := k.connect, queue := k.queue)
    ensures ClientInv(With(c, StopInLoop(k, during, next)))
  {
    assert Inv(k);
    StopKeeps(k, during, next);
    WithKeeps(c, StopInLoop(k, during, next));
  }

  lemma PostOutcome(c: Client, req: Request)
    requires ClientInv(c)
    ensures ClientInv(With(c, Post(c.k, [req])))
  {
    PostKeeps(c.k, [req]);
    assert Inv(Post(c.k, [req]));
    WithKeeps(c, Post(c.k, [req]));
  }

  lemma ErrorOutcome(c: Client, during: seq<Request>, next: Attempts)
    requires ClientInv(c)
    ensures ClientInv(With(c, HandleError(c.k, during, next)))
  {
    HandleErrorKeeps(c.k, during, next);
    WithKeeps(c, HandleError(c.k, during, next));
  }

  lemma WritableOutcome(c: Client)
    requires ClientInv(c)
    ensures ClientInv(OnWritable(c))
  {
    var k := HandleWrite(c.k);
    HandleWriteKeeps(c.k);
    assert |k.handed| > |c.k.handed| ==>
             c.k.state == Connecting && k.state == Connected && k.handed == c.k.handed + [k.handed[|c.k.handed|]];
    if |k.handed| > |c.k.handed| {
      NewConnectionKeeps(c, k, k.handed[|c.k.handed|]);
    } else {
      WithKeeps(c, k);
    }
  }

  lemma NewConnectionKeeps(c: Client, k: Connector, fd: nat)
    requires ClientInv(c) && Inv(k) && c.connection == None
    requires k.state == Connected && k.handed == c.k.handed + [fd]
    ensures ClientInv(NewConnection(With(c, k), fd))
  {
    assert c.open == {};
    assert c.established == c.destroyed + [] == c.destroyed;
  }

  lemma ClosedOutcome(c: Client, conn: nat, a: Attempts)
    requires ClientInv(c) && conn in c.open
    ensures ClientInv(RemoveConnection(c, conn, a))
  {
    var c1 := c.(connection := None, open := c.open - {conn}, destroyed := c.destroyed + [conn]);
    assert ClientInv(c1) by {
      assert c1.open == {};
      assert c1.established == c1.destroyed + [] == c1.destroyed;
    }
    if c.retry && c.wanted {
      RestartKeeps(c.k, a);
      WithKeeps(c1, Restart(c.k, a));
    }
  }

  /** Given a consistent client, an assert fails exactly when start()'s startInLoop finds the
      connector not disconnected; otherwise the client stays consistent. */
  lemma StepBreaksIff(c: Client, op: Op)
    requires ClientInv(c)
    ensures Step(c, op).broken <==> Starts(c, op) && c.k.state != Disconnected
    ensures !Step(c, op).broken ==> ClientInv(Step(c, op))
  {
    match op {
      case ConnectOp(inLoop, a) => ConnectBreaksIff(c, inLoop, a);
      case StopOp(inLoop, during, next) => StopKeepsClient(c, inLoop, during, next);
      case WritableOp => WritableOutcome(c);
      case ErrorOp(during, next) => ErrorOutcome(c, during, next);
      case ClosedOp(conn, a) => if conn in c.open { ClosedOutcome(c, conn, a); }
      case RunTaskOp(during, next) => RunTaskBreaksIff(c, during, next);
      case _ => FlagOutcome(c, op);
    }
  }

  lemma FlagOutcome(c: Client, op: Op)
    requires ClientInv(c) && (op.DisconnectOp? || op.WantOp? || op.EnableRetryOp?)
    ensures ClientInv(Step(c, op))
  {
  }

  lemma WantKeeps(c: Client, wanted: bool)
    requires ClientInv(c)
    ensures ClientInv(c.(wanted := wanted))
  {
  }

  lemma ConnectBreaksIff(c: Client, inLoop: bool, a: Attempts)
    requires ClientInv(c)
    ensures var op := ConnectOp(inLoop, a);
            && (Step(c, op).broken <==> inLoop && c.k.state != Disconnected)
            && (!Step(c, op).broken ==> ClientInv(Step(c, op)))
  {
    WantKeeps(c, true);
    if inLoop {
      StartOutcome(c.(wanted := true), c.k.(connect := true), a);
    } else {
      PostOutcome(c.(wanted := true), StartRequest);
    }
  }

  lemma StopKeepsClient(c: Client, inLoop: bool, during: seq<Request>, next: Attempts)
    requires ClientInv(c)
    ensures ClientInv(Step(c, StopOp(inLoop, during, next)))
  {
    WantKeeps(c, false);
    StopIs(c, inLoop, during, next);
    if inLoop {
      StopInLoopKeeps(c.(wanted := false), during, next);
    } else {
      PostOutcome(c.(wanted := false), StopRequest);
    }
  }

  lemma StopIs(c: Client, inLoop: bool, during: seq<Request>, next: Attempts)
    requires !c.broken
    ensures var c1 := c.(wanted := false);
            Step(c, StopOp(inLoop, during, next)) ==
            With(c1, if inLoop then StopInLoop(c1.k.(connect := false), during, next) else Post(c1.k, [StopRequest]))
  {
  }

  lemma StopInLoopKeeps(c: Client, during: seq<Request>, next: Attempts)
    requires ClientInv(c)
    ensures ClientInv(With(c, StopInLoop(c.k.(connect := false), during, next)))
  {
    StopOutcome(c, c.k.(connect := false), during, next);
  }

  /** It happens: connect() is called twice. */
  lemma ConnectTwiceBreaks()
    ensures Run(NEW_CLIENT, [ConnectOp(true, InProgress), ConnectOp(true, InProgress)]).broken
  {
    var op := ConnectOp(true, InProgress);
    assert [op, op][1..] == [op] && [op][1..] == [];
    var c := Step(NEW_CLIENT, op);
    StartUnfolds(NEW_CLIENT.k.(connect := true), InProgress);
    assert c.k.state == Connecting && !c.broken;
    assert Run(Step(c, op), []) == Step(c, op);
  }

  lemma RunTaskBreaksIff(c: Client, during: seq<Request>, next: Attempts)
    requires ClientInv(c)
    ensures var op := RunTaskOp(during, next);
            && (Step(c, op).broken <==> Starts(c, op) && c.k.state != Disconnected)
            && (!Step(c, op).broken ==> ClientInv(Step(c, op)))
  {
    if c.k.queue != [] {
      var k := c.k.(queue := c.k.queue[1..]);
      match c.k.queue[0] {
        case StartRequest => StartOutcome(c, k, next);
        case StopRequest => StopOutcome(c, k, during, next);
      }
    }
  }

  /** Every start() is carried out on a disconnected connector. */
  predicate StartsWhenDisconnected(c: Client, ops: seq<Op>)
    decreases ops
  {
    ops == [] || (
      && (Starts(c, ops[0]) ==> c.k.state == Disconnected)
      && StartsWhenDisconnected(Step(c, ops[0]), ops[1..])
    )
  }

  /** Over every run of retries, stops, closes and restarts: no assert fails, a channel exists
      exactly while connecting, every socket ever opened is held, closed once or handed over
      once, and the retry delay stays within its bounds. */
  lemma {:induction false} RunKeeps(c: Client, ops: seq<Op>)
    requires ClientInv(c) && StartsWhenDisconnected(c, ops)
    ensures ClientInv(Run(c, ops))
    decreases ops
  {
    if ops != [] {
      StepBreaksIff(c, ops[0]);
      RunKeeps(Step(c, ops[0]), ops[1..]);
    }
  }

  lemma SocketsAccountedFor(ops: seq<Op>)
    requires StartsWhenDisconnected(NEW_CLIENT, ops)
    ensures var c := Run(NEW_CLIENT, ops);
            && !c.broken
            && multiset(c.k.closed) + multiset(c.k.handed) + HeldBy(c.k) == Ids(c.k.sockets)
            && (c.k.channel.Some? <==> c.k.state == Connecting)
            && INIT_RETRY_DELAY_MS <= c.k.delay <= MAX_RETRY_DELAY_MS
            && |c.open| <= 1
            && c.sockets == c.k.handed && |c.k.handed| == c.nextConnId - 1
            && Lived(c)
  {
    RunKeeps(NEW_CLIENT, ops);
  }


  // ----- Stopping -----

  ghost predicate Stopped(c: Client) {
    !c.wanted && !c.k.connect
  }

  /** Nothing handed over, nothing opened, no sleep. */
  predicate Unmoved(k: Connector, d: Connector) {
    d.handed == k.handed && d.sockets == k.sockets && d.sleeps == k.sleeps && d.connect == k.connect
  }

  lemma UnwantedRetries(k: Connector, fd: nat, during: seq<Request>, next: Attempts)
    requires !k.connect
    ensures Unmoved(k, Retry(k, fd, during, next))
  {
  }

  lemma UnwantedHandlers(k: Connector, during: seq<Request>, next: Attempts)
    requires !k.connect
    ensures Unmoved(k, HandleWrite(k))
    ensures Unmoved(k, HandleError(k, during, next))
    ensures Unmoved(k, StopInLoop(k, during, next))
    ensures Unmoved(k, StartInLoop(k, next))
  {
    if k.channel.Some? {
      UnwantedRetries(DropChannel(k), k.channel.value, during, next);
      UnwantedRetries(DropChannel(k.(state := Disconnected)), k.channel.value, during, next);
    }
  }

  lemma StepStaysStopped(c: Client, op: Op)
    requires Stopped(c) && !op.ConnectOp? && !op.WantOp?
    ensures Stopped(Step(c, op)) && Step(c, op).k.handed == c.k.handed
    ensures Step(c, op).k.sockets == c.k.sockets && Step(c, op).k.sleeps == c.k.sleeps
  {
    match op {
      case StopOp(inLoop, during, next) =>
        if inLoop { UnwantedHandlers(c.k, during, next); } else { PostKeeps(c.k, [StopRequest]); }
      case WritableOp => UnwantedHandlers(c.k, [], InProgress);
      case ErrorOp(during, next) => UnwantedHandlers(c.k, during, next);
      case RunTaskOp(during, next) =>
        if c.k.queue != [] { UnwantedHandlers(c.k.(queue := c.k.queue[1..]), during, next); }
      case _ =>
    }
  }

  /** After stop(), and until connect() is called again, no socket is handed over, no further
      one is opened and nothing sleeps, whatever start and stop functors are still queued. */
  lemma {:induction false} StopIsFinal(c: Client, ops: seq<Op>)
    requires Stopped(c)
    requires forall op | op in ops :: !op.ConnectOp? && !op.WantOp?
    ensures Stopped(Run(c, ops)) && Run(c, ops).k.handed == c.k.handed
    ensures Run(c, ops).k.sockets == c.k.sockets && Run(c, ops).k.sleeps == c.k.sleeps
    decreases ops
  {
    if ops != [] {
      StepStaysStopped(c, ops[0]);
      StopIsFinal(Step(c, ops[0]), ops[1..]);
    }
  }

  lemma StopStops(c: Client, inLoop: bool, during: seq<Request>, next: Attempts)
    requires ClientInv(c)
    ensures Stopped(Step(c, StopOp(inLoop, during, next)))
    ensures inLoop ==> Step(c, StopOp(inLoop, during, next)).k.channel == None
    ensures Step(c, StopOp(inLoop, during, next)).k.handed == c.k.handed
  {
    if !inLoop { PostKeeps(c.k, [StopRequest]); }
  }

  // ----- Reconnecting -----

  predicate Dead(c: Client) {
    c.open == {} && c.k.state == Connected
  }

  lemma {:induction false} DeadStaysDead(c: Client, ops: seq<Op>)
    requires Dead(c)
    ensures Dead(Run(c, ops)) && Run(c, ops).k.sockets == c.k.sockets
    decreases ops
  {
    if ops != [] {
      if ops[0].ConnectOp? && !ops[0].inLoop { PostKeeps(c.k, [StartRequest]); }
      if ops[0].StopOp? && !ops[0].inLoop { PostKeeps(c.k, [StopRequest]); }
      DeadStaysDead(Step(c, ops[0]), ops[1..]);
    }
  }

  /** When its connection closes, the client opens another socket if it retries and is wanted;
      otherwise it never will again, since the connector stays kConnected for good. */
  lemma ReconnectsIff(c: Client, conn: nat, a: Attempts)
    requires ClientInv(c) && conn in c.open
    ensures Step(c, ClosedOp(conn, a)).k.sockets > c.k.sockets <==> c.retry && c.wanted
    ensures !(c.retry && c.wanted) ==>
              forall ops: seq<Op> :: Run(Step(c, ClosedOp(conn, a)), ops).k.sockets == c.k.sockets
  {
    if c.retry && c.wanted {
      RestartBacksOff(c.k, a);
    } else {
      forall ops: seq<Op>
        ensures Run(Step(c, ClosedOp(conn, a)), ops).k.sockets == c.k.sockets
      {
        DeadStaysDead(Step(c, ClosedOp(conn, a)), ops);
      }
    }
  }

  /** What one operation does to the wish to be connected. */
  function WantedNext(wanted: bool, op: Op): bool {
    match op
    case ConnectOp(_, _) => true
    case WantOp => true
    case StopOp(_, _, _) => false
    case DisconnectOp => false
    case _ => wanted
  }

  function WantedBy(wanted: bool, ops: seq<Op>): bool
    decreases ops
  {
    if ops == [] then wanted else WantedBy(WantedNext(wanted, ops[0]), ops[1..])
  }

  lemma StepFlags(c: Client, op: Op)
    requires !Step(c, op).broken
    ensures !c.broken && Step(c, op).wanted == WantedNext(c.wanted, op)
    ensures Step(c, op).retry <==> c.retry || op == EnableRetryOp
  {
  }

  /** Over every run the client is wanted exactly if its last connect came after its last stop or
      disconnect, and retries exactly if it was told to. */
  lemma {:induction false} FlagsFollow(c: Client, ops: seq<Op>)
    requires !Run(c, ops).broken
    ensures Run(c, ops).wanted == WantedBy(c.wanted, ops)
    ensures Run(c, ops).retry <==> c.retry || EnableRetryOp in ops
    ensures !c.broken
    decreases ops
  {
    if ops != [] {
      assert ops == [ops[0]] + ops[1..];
      FlagsFollow(Step(c, ops[0]), ops[1..]);
      StepFlags(c, ops[0]);
    }
  }

  /** The connection is destroyed, and the connector restarted, or left in Connected for good. */
  ghost predicate Reconnected(c: Client, d: Client, conn: nat, again: bool, a: Attempts) {
    && d.connection == None && d.destroyed == c.destroyed + [conn]
    && if again then BackedOff(c.k.(delay := INIT_RETRY_DELAY_MS), d.k, Sleeps(a), Opens(a), End(a), Arrived(a))
       else d.k == c.k && forall ops: seq<Op> :: Run(d, ops).k.sockets == c.k.sockets
  }

  lemma ClosedReconnects(c: Client, conn: nat, a: Attempts)
    requires ClientInv(c) && conn in c.open
    ensures Reconnected(c, Step(c, ClosedOp(conn, a)), conn, c.retry && c.wanted, a)
  {
    if c.retry && c.wanted {
      RestartBacksOff(c.k, a);
    } else {
      forall ops: seq<Op>
        ensures Run(Step(c, ClosedOp(conn, a)), ops).k.sockets == c.k.sockets
      {
        DeadStaysDead(Step(c, ClosedOp(conn, a)), ops);
      }
    }
  }

  /** So over every run whose starts find the connector disconnected, the close of the open
      connection is followed by another socket, backed off from the initial delay, if the client was
      told to retry and its last connect came after its last stop or disconnect; and otherwise no
      socket is ever opened again. */
  lemma ReconnectsOverRuns(ops: seq<Op>, conn: nat, a: Attempts)
    requires StartsWhenDisconnected(NEW_CLIENT, ops) && conn in Run(NEW_CLIENT, ops).open
    ensures var c := Run(NEW_CLIENT, ops);
            Reconnected(c, Step(c, ClosedOp(conn, a)), conn, EnableRetryOp in ops && WantedBy(false, ops), a)
  {
    RunKeeps(NEW_CLIENT, ops);
    FlagsFollow(NEW_CLIENT, ops);
    ClosedReconnects(Run(NEW_CLIENT, ops), conn, a);
  }

  // ----- What each call does -----

  /** connect() on the loop's thread opens sockets at once; another thread's is queued. */
  lemma ConnectStarts(c: Client, a: Attempts)
    requires ClientInv(c)
    ensures c.k.state == Disconnected ==>
              var d := Step(c, ConnectOp(true, a));
              d.wanted && BackedOff(c.k.(connect := true), d.k, Sleeps(a), Opens(a), End(a), Arrived(a))
    ensures var d := Step(c, ConnectOp(false, a));
            d.wanted && d.k == c.k.(connect := true, queue := c.k.queue + [StartRequest])
  {
    PostKeeps(c.k, [StartRequest]);
    if c.k.state == Disconnected { BackoffFrom(c.k.(connect := true), a); }
  }

  /** A queued start, run on a disconnected connector, opens sockets if it is still wanted then. */
  lemma QueuedStartRuns(c: Client, during: seq<Request>, a: Attempts)
    requires ClientInv(c) && c.k.state == Disconnected && c.k.queue != [] && c.k.queue[0] == StartRequest
    ensures var d, k := Step(c, RunTaskOp(during, a)), c.k.(queue := c.k.queue[1..]);
            if c.k.connect then BackedOff(k, d.k, Sleeps(a), Opens(a), End(a), Arrived(a)) else d.k == k
  {
    var k := c.k.(queue := c.k.queue[1..]);
    if k.connect { BackoffFrom(k, a); } else { UnwantedStart(k, a); }
  }

  /** stop() on the loop's thread gives a connect under way up for good; another thread's is queued. */
  lemma StopGivesUp(c: Client, during: seq<Request>, next: Attempts)
    requires ClientInv(c)
    ensures var d := Step(c, StopOp(true, during, next));
            !d.wanted && d.k == if c.k.state == Connecting then GivenUp(c.k.(connect := false), c.k.channel.value)
                                else c.k.(connect := false)
    ensures var d := Step(c, StopOp(false, during, next));
            !d.wanted && d.k == c.k.(connect := false, queue := c.k.queue + [StopRequest])
  {
    PostKeeps(c.k, [StopRequest]);
    assert Inv(c.k.(connect := false));
    StopRetries(c.k.(connect := false), during, next);
  }

  /** A queued stop, when it runs, does the same; a start that has come since makes it a retry. */
  lemma QueuedStopRuns(c: Client, during: seq<Request>, next: Attempts)
    requires ClientInv(c) && c.k.queue != [] && c.k.queue[0] == StopRequest
    ensures var d, k := Step(c, RunTaskOp(during, next)), c.k.(queue := c.k.queue[1..]);
            if k.state == Connecting then Retried(k, d.k, during, next) else d.k == k
  {
    var k := c.k.(queue := c.k.queue[1..]);
    assert Inv(k);
    StopRetries(k, during, next);
  }

  /** The failure of a connect under way is retried. */
  lemma ErrorIsRetried(c: Client, during: seq<Request>, next: Attempts)
    requires ClientInv(c)
    ensures var d := Step(c, ErrorOp(during, next));
            if c.k.state == Connecting then Retried(c.k, d.k, during, next) else d.k == c.k
  {
    ErrorRetries(c.k, during, next);
  }

  /** The success of a connect that is wanted makes a connection of its socket, established at once;
      one that is not wanted closes it. */
  lemma WritableConnects(c: Client)
    requires ClientInv(c) && c.k.state == Connecting
    ensures var d, id, fd := Step(c, WritableOp), c.nextConnId, c.k.channel.value;
            && d.k.state == Connected && d.k.channel == None
            && if c.k.connect then
                 && d.connection == Some(id) && d.open == {id} && d.nextConnId == id + 1
                 && d.sockets == c.sockets + [fd] && d.established == c.established + [id] && d.k.closed == c.k.closed
               else
                 && d.connection == None && d.sockets == c.sockets && d.established == c.established
                 && d.k.closed == c.k.closed + [fd]
  {
    WriteHandsOver(c.k);
  }

  /** disconnect() shuts the current connection down, if there is one, and leaves the connector be. */
  lemma DisconnectShutsDown(c: Client)
    requires ClientInv(c)
    ensures var d := Step(c, DisconnectOp);
            && !d.wanted && d.k == c.k && d.connection == c.connection
            && multiset(d.shutdowns) == multiset(c.shutdowns) + multiset(c.open)
  {
  }
}
