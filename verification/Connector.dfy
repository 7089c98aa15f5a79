/** Connector.cpp as a state machine: connecting, backing off, stopping and restarting, for any
    outcome of each connect() and any requests of other threads. Sockets are numbered in the
    order they are opened. */
module Connectors {
  import opened Common
  import opened Channels
  import PollDiscipline

  const INIT_RETRY_DELAY_MS := 500
  const MAX_RETRY_DELAY_MS := 30000

  datatype State = Disconnected | Connecting | Connected

  /** start() and stop() called by another thread: the flag at once, the rest as a functor. */
  datatype Request = StartRequest | StopRequest

  /** How connect() goes, and, when it fails in a way that is retried, which requests arrive
      while the loop's thread sleeps and how the next connect() goes. */
  datatype Attempts = InProgress | Fatal | Refused(during: seq<Request>, next: Attempts)

  /**
   * `channel` is the socket held by channel_. `queue` holds the functors startInLoop and
   * stopInLoop; `sockets` counts those opened, `closed` and `handed` list those given up, `sleeps`
   * the arguments of sleep(). `asked` lists what each socket's channel has asked of the poller.
   * `broken`: an assert has failed or a null channel_ was used.
   */
  datatype Connector = Connector(
    connect: bool, state: State, channel: Option<nat>, delay: nat, queue: seq<Request>,
    sockets: nat, closed: seq<nat>, handed: seq<nat>, sleeps: seq<nat>,
    asked: seq<(nat, PollCall)>, broken: bool)

  const IDLE := Connector(false, Disconnected, None, INIT_RETRY_DELAY_MS, [], 0, [], [], [], [], false)

  function Fail(k: Connector): Connector {
    k.(broken := true)
  }

  const WRITING := Interest(false, true)

  /** The channel on `fd` makes a request of the poller. */
  function Ask(k: Connector, fd: nat, call: PollCall): Connector {
    k.(asked := k.asked + [(fd, call)])
  }

  function Close(k: Connector, fd: nat): Connector {
    k.(closed := k.closed + [fd])
  }

  function Post(k: Connector, reqs: seq<Request>): Connector
    decreases reqs
  {
    if reqs == [] then k
    else Post(k.(connect := reqs[0] == StartRequest, queue := k.queue + [reqs[0]]), reqs[1..])
  }

  function StartInLoop(k: Connector, a: Attempts): Connector
    decreases a, 2
  {
    if k.state != Disconnected then Fail(k)
    else if k.connect then Connect(k, a)
    else k
  }

  function Connect(k: Connector, a: Attempts): Connector
    decreases a, 1
  {
    var fd := k.sockets;
    var k1 := k.(sockets := fd + 1);
    match a
    case InProgress => BeginConnecting(k1, fd)
    case Fatal => Close(k1, fd)
    case Refused(during, next) => Retry(k1, fd, during, next)
  }

  function BeginConnecting(k: Connector, fd: nat): Connector {
    if k.channel.Some? then Fail(k.(state := Connecting))
    else Ask(k.(state := Connecting, channel := Some(fd)), fd, UpdateCall(WRITING))
  }

  /** The sleep's argument is in milliseconds times 1000. startInLoop runs inline, before the
      delay is doubled. */
  function Retry(k: Connector, fd: nat, during: seq<Request>, next: Attempts): Connector
    decreases next, 3
  {
    var k1 := Close(k, fd).(state := Disconnected);
    if !k1.connect then k1
    else
      var k2 := StartInLoop(Post(k1.(sleeps := k1.sleeps + [k1.delay * 1000]), during), next);
      if k2.broken then k2 else k2.(delay := Min(k2.delay * 2, MAX_RETRY_DELAY_MS))
  }

  /** removeAndResetChannel: resetChannel runs inline, on the loop's thread. */
  function DropChannel(k: Connector): Connector {
    match k.channel
    case None => k
    case Some(fd) => Ask(Ask(k, fd, UpdateCall(NO_INTEREST)), fd, RemoveCall).(channel := None)
  }

  function HandleWrite(k: Connector): Connector {
    if k.state != Connecting then k
    else if k.channel.None? then Fail(k)
    else
      var fd := k.channel.value;
      var k1 := DropChannel(k).(state := Connected);
      if k1.connect then k1.(handed := k1.handed + [fd]) else Close(k1, fd)
  }

  function HandleError(k: Connector, during: seq<Request>, next: Attempts): Connector {
    if k.state != Connecting then k
    else if k.channel.None? then Fail(k)
    else Retry(DropChannel(k), k.channel.value, during, next)
  }

  function StopInLoop(k: Connector, during: seq<Request>, next: Attempts): Connector {
    if k.state != Connecting then k
    else if k.channel.None? then Fail(k)
    else Retry(DropChannel(k.(state := Disconnected)), k.channel.value, during, next)
  }

  function Restart(k: Connector, a: Attempts): Connector {
    StartInLoop(k.(state := Disconnected, delay := INIT_RETRY_DELAY_MS, connect := true), a)
  }

  // ----- Ownership -----

  function Ids(n: nat): multiset<nat> {
    if n == 0 then multiset{} else Ids(n - 1) + multiset{n - 1}
  }

  function HeldBy(k: Connector): multiset<nat> {
    match k.channel
    case None => multiset{}
    case Some(fd) => multiset{fd}
  }

  /** Every socket opened so far is in exactly one place; `loose` are in a handler's hands. */
  ghost predicate Owned(k: Connector, loose: multiset<nat>) {
    multiset(k.closed) + multiset(k.handed) + HeldBy(k) + loose == Ids(k.sockets)
  }

  /** What the channel on `fd` has asked. */
  function AskedBy(asked: seq<(nat, PollCall)>, fd: nat): seq<PollCall> {
    if asked == [] then []
    else
      var before, last := AskedBy(asked[..|asked| - 1], fd), asked[|asked| - 1];
      if last.0 == fd then before + [last.1] else before
  }

  const WHOLE_LIFE := [UpdateCall(WRITING), UpdateCall(NO_INTEREST), RemoveCall]

  /** The channel in use has asked for write events; any other has asked for nothing yet, or has
      also been switched off and removed. */
  ghost predicate Asks(asked: seq<(nat, PollCall)>, channel: Option<nat>, sockets: nat) {
    forall fd: nat :: AsksFor(asked, channel, sockets, fd)
  }

  ghost predicate AsksFor(asked: seq<(nat, PollCall)>, channel: Option<nat>, sockets: nat, fd: nat) {
    var calls := AskedBy(asked, fd);
    if channel == Some(fd) then calls == [UpdateCall(WRITING)]
    else calls == [] || (calls == WHOLE_LIFE && fd < sockets)
  }

  ghost predicate Inv(k: Connector) {
    && !k.broken
    && Owned(k, multiset{})
    && Asks(k.asked, k.channel, k.sockets)
    && (k.channel.Some? <==> k.state == Connecting)
    && INIT_RETRY_DELAY_MS <= k.delay <= MAX_RETRY_DELAY_MS
  }

  lemma AskedSnoc(asked: seq<(nat, PollCall)>, fd: nat, call: PollCall, g: nat)
    ensures AskedBy(asked + [(fd, call)], g) == if g == fd then AskedBy(asked, g) + [call] else AskedBy(asked, g)
  {
    assert (asked + [(fd, call)])[..|asked|] == asked;
  }

  lemma OpenedAsks(asked: seq<(nat, PollCall)>, sockets: nat)
    requires Asks(asked, None, sockets)
    ensures Asks(asked, None, sockets + 1) && AskedBy(asked, sockets) == []
  {
    assert AsksFor(asked, None, sockets, sockets);
    var more := sockets + 1;
    forall g: nat
      ensures AsksFor(asked, None, more, g)
    {
      assert AsksFor(asked, None, sockets, g);
    }
  }

  lemma BeginAsks(asked: seq<(nat, PollCall)>, sockets: nat, fd: nat)
    requires Asks(asked, None, sockets) && fd < sockets && AskedBy(asked, fd) == []
    ensures Asks(asked + [(fd, UpdateCall(WRITING))], Some(fd), sockets)
  {
    forall g: nat
      ensures AsksFor(asked + [(fd, UpdateCall(WRITING))], Some(fd), sockets, g)
    {
      assert AsksFor(asked, None, sockets, g);
      AskedSnoc(asked, fd, UpdateCall(WRITING), g);
    }
  }

  lemma DropAsks(asked: seq<(nat, PollCall)>, sockets: nat, fd: nat)
    requires Asks(asked, Some(fd), sockets) && fd < sockets
    ensures Asks(asked + [(fd, UpdateCall(NO_INTEREST))] + [(fd, RemoveCall)], None, sockets)
  {
    forall g: nat
      ensures AsksFor(asked + [(fd, UpdateCall(NO_INTEREST))] + [(fd, RemoveCall)], None, sockets, g)
    {
      assert AsksFor(asked, Some(fd), sockets, g);
      AskedSnoc(asked, fd, UpdateCall(NO_INTEREST), g);
      AskedSnoc(asked + [(fd, UpdateCall(NO_INTEREST))], fd, RemoveCall, g);
    }
  }

  /** A held socket is one that was opened. */
  lemma HeldIsOpened(k: Connector, fd: nat)
    requires Owned(k, multiset{}) && k.channel == Some(fd)
    ensures fd < k.sockets
  {
    assert HeldBy(k)[fd] == 1;
    IdsCountOnce(k.sockets, fd);
  }

  /** Ids really numbers each socket once. */
  lemma {:induction false} IdsCountOnce(n: nat, fd: nat)
    ensures Ids(n)[fd] == if fd < n then 1 else 0
  {
    if n > 0 { IdsCountOnce(n - 1, fd); }
  }

  /** Every channel of the connector keeps its discipline towards the poller. */
  lemma ChannelsAreDisciplined(k: Connector, fd: nat)
    requires Inv(k)
    ensures PollDiscipline.Disciplined(AskedBy(k.asked, fd))
    ensures k.channel == Some(fd) <==> AskedBy(k.asked, fd) == [UpdateCall(WRITING)]
  {
    assert AsksFor(k.asked, k.channel, k.sockets, fd);
  }

  lemma {:induction false} PostKeeps(k: Connector, reqs: seq<Request>)
    ensures var p := Post(k, reqs); p == k.(connect := p.connect, queue := k.queue + reqs)
    ensures Post(k, reqs).connect == if reqs == [] then k.connect else reqs[|reqs| - 1] == StartRequest
    decreases reqs
  {
    if reqs != [] {
      PostKeeps(k.(connect := reqs[0] == StartRequest, queue := k.queue + [reqs[0]]), reqs[1..]);
      assert k.queue + [reqs[0]] + reqs[1..] == k.queue + reqs;
    } else {
      assert k.queue + reqs == k.queue;
    }
  }

  lemma PostKeepsInv(k: Connector, reqs: seq<Request>)
    requires Inv(k)
    ensures Inv(Post(k, reqs))
    ensures var p := Post(k, reqs); p.state == k.state && p.channel == k.channel && p.handed == k.handed && p.delay == k.delay
  {
    PostKeeps(k, reqs);
  }

  /** A new socket is in its handler's hands. */
  ghost predicate InHand(k: Connector, fd: nat) {
    && !k.broken
    && Owned(k, multiset{fd})
    && k.channel.None?
    && Asks(k.asked, None, k.sockets)
    && INIT_RETRY_DELAY_MS <= k.delay <= MAX_RETRY_DELAY_MS
  }

  lemma OpenedIsOwned(k: Connector)
    requires Inv(k) && k.channel.None?
    ensures InHand(k.(sockets := k.sockets + 1), k.sockets) && AskedBy(k.asked, k.sockets) == []
  {
    assert Ids(k.sockets + 1) == Ids(k.sockets) + multiset{k.sockets};
    OpenedAsks(k.asked, k.sockets);
  }

  lemma BeginKeeps(k: Connector, fd: nat)
    requires InHand(k, fd) && fd < k.sockets && AskedBy(k.asked, fd) == []
    ensures Inv(BeginConnecting(k, fd))
  {
    BeginAsks(k.asked, k.sockets, fd);
  }

  lemma DropKeeps(k: Connector, fd: nat)
    requires Inv(k) && k.channel == Some(fd)
    ensures InHand(DropChannel(k), fd)
    ensures var d := DropChannel(k); d == k.(channel := None, asked := d.asked)
  {
    HeldIsOpened(k, fd);
    DropAsks(k.asked, k.sockets, fd);
  }

  lemma ClosedKeeps(k: Connector, fd: nat)
    requires InHand(k, fd)
    ensures Inv(Close(k, fd).(state := Disconnected))
  {
  }

  lemma StartUnfolds(k: Connector, a: Attempts)
    requires k.state == Disconnected && k.connect
    ensures var fd := k.sockets; var k1 := k.(sockets := fd + 1);
            StartInLoop(k, a) == match a
              case InProgress => BeginConnecting(k1, fd)
              case Fatal => Close(k1, fd)
              case Refused(during, next) => Retry(k1, fd, during, next)
  {
  }

  /** However connect() and its retries go, from a consistent idle connector. */
  lemma {:induction false} StartKeeps(k: Connector, a: Attempts)
    requires Inv(k) && k.state == Disconnected
    ensures Inv(StartInLoop(k, a)) && StartInLoop(k, a).state != Connected
    ensures StartInLoop(k, a).handed == k.handed
    decreases a, 0
  {
    if k.connect {
      var fd := k.sockets;
      var k1 := k.(sockets := fd + 1);
      OpenedIsOwned(k);
      StartUnfolds(k, a);
      match a {
        case InProgress => BeginKeeps(k1, fd);
        case Fatal => ClosedKeeps(k1, fd);
        case Refused(during, next) => RetryKeeps(k1, fd, during, next);
      }
    }
  }

  lemma {:induction false} RetryKeeps(k: Connector, fd: nat, during: seq<Request>, next: Attempts)
    requires InHand(k, fd)
    ensures Inv(Retry(k, fd, during, next)) && Retry(k, fd, during, next).state != Connected
    ensures Retry(k, fd, during, next).handed == k.handed
    decreases next, 1
  {
    var k1 := Close(k, fd).(state := Disconnected);
    ClosedKeeps(k, fd);
    if k1.connect {
      var k2 := k1.(sleeps := k1.sleeps + [k1.delay * 1000]);
      PostKeepsInv(k2, during);
      StartKeeps(Post(k2, during), next);
    }
  }

  lemma HandleWriteKeeps(k: Connector)
    requires Inv(k)
    ensures Inv(HandleWrite(k))
  {
    if k.state == Connecting {
      var fd := k.channel.value;
      DropKeeps(k, fd);
      HandedKeeps(DropChannel(k), fd);
    }
  }

  lemma HandedKeeps(k: Connector, fd: nat)
    requires InHand(k, fd)
    ensures Inv(k.(state := Connected, handed := k.handed + [fd]))
    ensures Inv(Close(k, fd).(state := Connected))
  {
  }

  lemma HandleErrorKeeps(k: Connector, during: seq<Request>, next: Attempts)
    requires Inv(k)
    ensures Inv(HandleError(k, during, next)) && HandleError(k, during, next).handed == k.handed
  {
    if k.state == Connecting {
      DropKeeps(k, k.channel.value);
      RetryKeeps(DropChannel(k), k.channel.value, during, next);
    }
  }

  lemma StopKeeps(k: Connector, during: seq<Request>, next: Attempts)
    requires Inv(k)
    ensures Inv(StopInLoop(k, during, next)) && StopInLoop(k, during, next).handed == k.handed
  {
    if k.state == Connecting {
      DropKeeps(k, k.channel.value);
      RetryKeeps(DropChannel(k.(state := Disconnected)), k.channel.value, during, next);
    }
  }

  lemma RestartKeeps(k: Connector, a: Attempts)
    requires Inv(k) && k.state == Connected
    ensures Inv(Restart(k, a)) && Restart(k, a).state != Connected && Restart(k, a).handed == k.handed
  {
    StartKeeps(k.(state := Disconnected, delay := INIT_RETRY_DELAY_MS, connect := true), a);
  }

  // ----- Backoff -----

  function Failures(a: Attempts): nat {
    if a.Refused? then 1 + Failures(a.next) else 0
  }

  function Last(a: Attempts): Attempts {
    if a.Refused? then Last(a.next) else a
  }

  /** No stop arrives during any of the sleeps. */
  predicate Unstopped(a: Attempts) {
    a.Refused? ==> StopRequest !in a.during && Unstopped(a.next)
  }

  /** A sleep ends with the connector still wanted unless the last request during it was a stop. */
  predicate StillWanted(during: seq<Request>) {
    during == [] || during[|during| - 1] == StartRequest
  }

  predicate GoesOn(a: Attempts) {
    a.Refused? && StillWanted(a.during)
  }

  // What a start that is wanted comes to, up to the first sleep that ends unwanted.

  function Sleeps(a: Attempts): nat {
    if !a.Refused? then 0 else if GoesOn(a) then 1 + Sleeps(a.next) else 1
  }

  function Opens(a: Attempts): (n: nat)
    ensures n > 0
  {
    if GoesOn(a) then 1 + Opens(a.next) else 1
  }

  function End(a: Attempts): Attempts {
    if GoesOn(a) then End(a.next) else a
  }

  function Arrived(a: Attempts): seq<Request> {
    if !a.Refused? then [] else if GoesOn(a) then a.during + Arrived(a.next) else a.during
  }

  lemma {:induction false} UnstoppedRuns(a: Attempts)
    requires Unstopped(a)
    ensures Sleeps(a) == Failures(a) && Opens(a) == Failures(a) + 1 && End(a) == Last(a)
    decreases a
  {
    if a.Refused? {
      assert a.during != [] ==> a.during[|a.during| - 1] in a.during;
      UnstoppedRuns(a.next);
    }
  }

  function Repeat(n: nat, k: nat): seq<nat> {
    seq(k, i => n)
  }

  /** `n` sockets in a row, from `first` on. */
  function Row(first: nat, n: nat): seq<nat> {
    seq(n, i requires 0 <= i < n => first + i)
  }

  /**
   * `d` is `k` after `sleeps` failures in a row and `more` further sockets, ending with `end`:
   * every sleep was the same, the delay has doubled as often, up to its ceiling, and every socket
   * opened was closed but for one that is now being connected.
   */
  ghost predicate BackedOff(k: Connector, d: Connector, sleeps: nat, more: nat, end: Attempts, arrived: seq<Request>) {
    && !d.broken && d.handed == k.handed && d.queue == k.queue + arrived
    && d.sleeps == k.sleeps + Repeat(k.delay * 1000, sleeps)
    && d.delay == Min(k.delay * Pow2(sleeps), MAX_RETRY_DELAY_MS)
    && d.sockets == k.sockets + more
    && d.connect == !end.Refused?
    && if end.InProgress? then
         && more > 0
         && d.state == Connecting && d.channel == Some(d.sockets - 1)
         && d.closed == k.closed + Row(k.sockets, more - 1)
         && d.asked == k.asked + [(d.sockets - 1, UpdateCall(WRITING))]
       else
         && d.state == Disconnected && d.channel == None
         && d.closed == k.closed + Row(k.sockets, more)
         && d.asked == k.asked
  }

  /** A start, whatever connect() answers and whatever arrives meanwhile: each failure sleeps once,
      with the same delay, since each doubling waits for the retries after it. */
  lemma Backoff(k: Connector, a: Attempts)
    requires Inv(k) && k.state == Disconnected && k.connect
    ensures BackedOff(k, StartInLoop(k, a), Sleeps(a), Opens(a), End(a), Arrived(a))
  {
    BackoffFrom(k, a);
  }

  predicate Ready(k: Connector) {
    !k.broken && k.channel.None? && k.state == Disconnected && k.connect && k.delay <= MAX_RETRY_DELAY_MS
  }

  lemma {:induction false} BackoffFrom(k: Connector, a: Attempts)
    requires Ready(k)
    ensures BackedOff(k, StartInLoop(k, a), Sleeps(a), Opens(a), End(a), Arrived(a))
    decreases a, 0
  {
    if a.Refused? {
      var k1 := k.(sockets := k.sockets + 1);
      RetryBacksOff(k1, k.sockets, a.during, a.next);
      StartUnfolds(k, a);
      OneOpened(k, k1, StartInLoop(k, a), a);
    } else {
      NoFailure(k, a);
    }
  }

  lemma NoFailure(k: Connector, a: Attempts)
    requires Ready(k) && !a.Refused?
    ensures BackedOff(k, StartInLoop(k, a), 0, 1, a, [])
  {
    assert k.sleeps + Repeat(k.delay * 1000, 0) == k.sleeps && k.queue + [] == k.queue;
    assert k.closed + Row(k.sockets, 0) == k.closed && Row(k.sockets, 1) == [k.sockets];
    assert Pow2(0) == 1;
  }

  /** The socket that failed was the first of those opened. */
  lemma OneOpened(k: Connector, k1: Connector, d: Connector, a: Attempts)
    requires a.Refused? && k1 == k.(sockets := k.sockets + 1)
    requires BackedOff(Close(k1, k.sockets), d, Sleeps(a), Opens(a) - 1, End(a), Arrived(a))
    ensures BackedOff(k, d, Sleeps(a), Opens(a), End(a), Arrived(a))
  {
    RowHead(k.sockets, Opens(a));
    if Opens(a) > 1 { RowHead(k.sockets, Opens(a) - 1); }
  }

  lemma RowHead(first: nat, n: nat)
    requires n > 0
    ensures Row(first, n) == [first] + Row(first + 1, n - 1)
  {
  }

  /** A retry that is wanted, with the failed socket in hand: it is closed, and the rest is a sleep
      and a start. */
  lemma {:induction false} RetryBacksOff(k: Connector, fd: nat, during: seq<Request>, next: Attempts)
    requires Ready(k.(state := Disconnected))
    ensures var a := Refused(during, next);
            BackedOff(Close(k, fd), Retry(k, fd, during, next), Sleeps(a), Opens(a) - 1, End(a), Arrived(a))
    decreases next, 1
  {
    var k1 := Asleep(k, fd, during);
    AsleepIs(k, fd, during);
    if StillWanted(during) {
      BackoffFrom(k1, next);
      OneMoreFailure(Close(k, fd), k1, StartInLoop(k1, next), next, during);
    } else {
      SleptUnwanted(Close(k, fd), k1, during);
    }
    RetryIs(k, fd, during, next);
  }

  /** A failed attempt with its socket, from closing it to the end of the sleep. */
  function Asleep(k: Connector, fd: nat, during: seq<Request>): Connector {
    var k1 := Close(k, fd).(state := Disconnected);
    Post(k1.(sleeps := k1.sleeps + [k1.delay * 1000]), during)
  }

  lemma AsleepIs(k: Connector, fd: nat, during: seq<Request>)
    requires k.connect
    ensures Asleep(k, fd, during) ==
            Close(k, fd).(state := Disconnected, sleeps := k.sleeps + [k.delay * 1000],
                          connect := StillWanted(during), queue := k.queue + during)
  {
    var k1 := Close(k, fd).(state := Disconnected);
    PostKeeps(k1.(sleeps := k1.sleeps + [k1.delay * 1000]), during);
  }

  /** A retry is its sleep, the attempts after it, and then the doubling. */
  lemma RetryIs(k: Connector, fd: nat, during: seq<Request>, next: Attempts)
    requires k.connect
    ensures var d := StartInLoop(Asleep(k, fd, during), next);
            Retry(k, fd, during, next) == if d.broken then d else d.(delay := Min(d.delay * 2, MAX_RETRY_DELAY_MS))
  {
    assert Close(k, fd).(state := Disconnected).connect;
  }

  lemma OneMoreFailure(k: Connector, k1: Connector, d: Connector, next: Attempts, during: seq<Request>)
    requires StillWanted(during)
    requires BackedOff(k1, d, Sleeps(next), Opens(next), End(next), Arrived(next))
    requires k1 == k.(state := Disconnected, sleeps := k.sleeps + [k.delay * 1000], connect := true, queue := k.queue + during)
    ensures var a := Refused(during, next);
            BackedOff(k, d.(delay := Min(d.delay * 2, MAX_RETRY_DELAY_MS)), Sleeps(a), Opens(a) - 1, End(a), Arrived(a))
  {
    var n := Sleeps(next);
    assert k.sleeps + [k.delay * 1000] + Repeat(k.delay * 1000, n) == k.sleeps + Repeat(k.delay * 1000, n + 1);
    assert k.queue + during + Arrived(next) == k.queue + (during + Arrived(next));
    DoubleOnceMore(k.delay, n);
  }

  lemma SleptUnwanted(k: Connector, k1: Connector, during: seq<Request>)
    requires !StillWanted(during) && !k.broken && k.channel.None?
    requires k1 == k.(state := Disconnected, sleeps := k.sleeps + [k.delay * 1000], connect := false, queue := k.queue + during)
    ensures forall next :: BackedOff(k, k1.(delay := Min(k1.delay * 2, MAX_RETRY_DELAY_MS)), 1, 0, Refused(during, next), during)
  {
    assert Repeat(k.delay * 1000, 1) == [k.delay * 1000];
    assert k.closed + Row(k.sockets, 0) == k.closed;
    assert Pow2(1) == 2 * Pow2(0) == 2;
  }

  lemma DoubleOnceMore(d: nat, n: nat)
    ensures Min(Min(d * Pow2(n), MAX_RETRY_DELAY_MS) * 2, MAX_RETRY_DELAY_MS) == Min(d * Pow2(n + 1), MAX_RETRY_DELAY_MS)
  {
    assert d * Pow2(n + 1) == 2 * (d * Pow2(n));
  }

  // ----- What the handlers do -----

  /** The channel of socket `fd` has been switched off, removed and dropped, and the socket closed. */
  function GivenUp(k: Connector, fd: nat): Connector {
    k.(state := Disconnected, channel := None, closed := k.closed + [fd],
       asked := k.asked + [(fd, UpdateCall(NO_INTEREST)), (fd, RemoveCall)])
  }

  lemma DroppedAndClosed(k: Connector, fd: nat)
    requires k.channel == Some(fd)
    ensures Close(DropChannel(k), fd).(state := Disconnected) == GivenUp(k, fd)
  {
    assert k.asked + [(fd, UpdateCall(NO_INTEREST))] + [(fd, RemoveCall)] ==
           k.asked + [(fd, UpdateCall(NO_INTEREST)), (fd, RemoveCall)];
  }

  /** What comes of a connect that fails, or is stopped, while under way: its socket is given up, and
      if the connector is still wanted it is retried, with a sleep before each further socket. */
  ghost predicate Retried(k: Connector, d: Connector, during: seq<Request>, next: Attempts)
    requires k.channel.Some?
  {
    var a, k1 := Refused(during, next), GivenUp(k, k.channel.value);
    if k.connect then BackedOff(k1, d, Sleeps(a), Opens(a) - 1, End(a), Arrived(a)) else d == k1
  }

  lemma RetryRetries(k: Connector, during: seq<Request>, next: Attempts)
    requires !k.broken && k.channel.Some? && k.delay <= MAX_RETRY_DELAY_MS
    ensures Retried(k, Retry(DropChannel(k), k.channel.value, during, next), during, next)
  {
    var fd := k.channel.value;
    DroppedAndClosed(k, fd);
    if k.connect {
      RetryBacksOff(DropChannel(k), fd, during, next);
      BackedOffFrom(Close(DropChannel(k), fd), Disconnected, Retry(DropChannel(k), fd, during, next), Refused(during, next));
    }
  }

  /** It does not matter what the state was before. */
  lemma BackedOffFrom(k: Connector, state: State, d: Connector, a: Attempts)
    requires a.Refused? && BackedOff(k, d, Sleeps(a), Opens(a) - 1, End(a), Arrived(a))
    ensures BackedOff(k.(state := state), d, Sleeps(a), Opens(a) - 1, End(a), Arrived(a))
  {
  }

  /** A failed connect is given up and retried, exactly while it is under way. */
  lemma ErrorRetries(k: Connector, during: seq<Request>, next: Attempts)
    requires Inv(k)
    ensures if k.state == Connecting then Retried(k, HandleError(k, during, next), during, next)
            else HandleError(k, during, next) == k
  {
    if k.state == Connecting { RetryRetries(k, during, next); }
  }

  /** So is one that is stopped; it is retried only if a start has come since. */
  lemma StopRetries(k: Connector, during: seq<Request>, next: Attempts)
    requires Inv(k)
    ensures if k.state == Connecting then Retried(k, StopInLoop(k, during, next), during, next)
            else StopInLoop(k, during, next) == k
  {
    if k.state == Connecting { RetryRetries(k.(state := Disconnected), during, next); }
  }

  /** A connect that succeeds takes its channel from the poller and hands the socket over, once, if
      it is still wanted; otherwise it closes it. */
  lemma WriteHandsOver(k: Connector)
    requires Inv(k)
    ensures if k.state == Connecting then
              var fd := k.channel.value;
              HandleWrite(k) == GivenUp(k, fd).(state := Connected,
                                                closed := if k.connect then k.closed else k.closed + [fd],
                                                handed := if k.connect then k.handed + [fd] else k.handed)
            else HandleWrite(k) == k
  {
    if k.state == Connecting { DroppedAndClosed(k, k.channel.value); }
  }

  /** A restart is wanted whatever came before, and backs off from the initial delay. */
  lemma RestartBacksOff(k: Connector, a: Attempts)
    requires Inv(k) && k.state == Connected
    ensures BackedOff(k.(delay := INIT_RETRY_DELAY_MS), Restart(k, a), Sleeps(a), Opens(a), End(a), Arrived(a))
  {
    var k1 := k.(state := Disconnected, delay := INIT_RETRY_DELAY_MS, connect := true);
    BackoffFrom(k1, a);
  }

  /** A start that is not wanted does nothing. */
  lemma UnwantedStart(k: Connector, a: Attempts)
    requires k.state == Disconnected && !k.connect
    ensures StartInLoop(k, a) == k
  {
  }
}
