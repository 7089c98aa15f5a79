/** TcpConnection.cpp as a state machine: the output stream, the close handshake and the
    dispatch of poll events, for any results of read and write and any user callbacks.
    Each function is one handler, run without interruption on the loop's thread. */
module Connections {
  import opened Common
  import opened Channels

  datatype State = Connecting | Connected | Disconnecting | Disconnected

  /** Functors of this connection that other threads have queued in its loop. */
  datatype Task = SendTask(msg: Bytes) | SendCharsTask(mem: Bytes, len: nat) | ShutdownTask

  /** What user code does with a connection inside a callback on the loop's thread;
      `written` is what write() will return. `mem` is the memory behind a char pointer. */
  datatype Act = ActSend(msg: Bytes, written: int)
               | ActSendChars(mem: Bytes, len: nat, written: int)
               | ActShutdown

  /** What read() yields; the message callback then performs `acts`. */
  datatype ReadResult = Received(acts: seq<Act>) | Eof | ReadError

  /**
   * `wire` is everything write() took, `accepted` every message sendInLoop was given.
   * `writes`, `halfCloses` and `closes` count the calls of write, of shutdownWrite and of the close callback.
   * `broken`: an assert of the source has failed, or its behaviour is undefined.
   */
  datatype Conn = Conn(
    state: State,
    events: Interest,
    out: Bytes,
    queue: seq<Task>,
    wire: Bytes,
    accepted: Bytes,
    writes: nat,
    halfCloses: nat,
    closes: nat,
    calls: seq<PollCall>,
    broken: bool)

  const FRESH := Conn(Connecting, NO_INTEREST, [], [], [], [], 0, 0, 0, [], false)

  predicate Live(c: Conn) {
    c.state == Connected || c.state == Disconnecting
  }

  function Fail(c: Conn): Conn {
    c.(broken := true)
  }

  /** The channel's interest changes and its poller is told. */
  function SetEvents(c: Conn, events: Interest): Conn {
    c.(events := events, calls := c.calls + [UpdateCall(events)])
  }

  function EnableWriting(c: Conn): Conn {
    if c.events.write then c else SetEvents(c, c.events.(write := true))
  }

  /** How many of `len` bytes a write that returned `written` took. */
  function Taken(len: nat, written: int): (n: nat)
    ensures n <= len
  {
    if written < 0 then 0 else Min(written, len)
  }

  predicate WritesDirectly(c: Conn) {
    !c.events.write && c.out == []
  }

  /** The bytes of a `len`-byte message that sendInLoop's own write takes. */
  function TakenDirectly(c: Conn, len: nat, written: int): (n: nat)
    ensures n <= len
  {
    if WritesDirectly(c) then Taken(len, written) else 0
  }

  /** The message is accepted and its first `n` bytes are on the wire. */
  function Accept(c: Conn, msg: Bytes, n: nat): Conn
    requires n <= |msg|
  {
    c.(wire := c.wire + msg[..n], accepted := c.accepted + msg,
       writes := if WritesDirectly(c) then c.writes + 1 else c.writes)
  }

  function SendInLoop(c: Conn, msg: Bytes, written: int): Conn {
    var n := TakenDirectly(c, |msg|, written);
    var c1 := Accept(c, msg, n);
    if n < |msg| then EnableWriting(c1.(out := c1.out + msg[n..])) else c1
  }

  /** strlen: the index of the first zero byte, if the memory holds one. */
  function CStrLen(mem: Bytes): (n: Option<nat>)
    ensures n.None? ==> forall i | 0 <= i < |mem| :: mem[i] != 0
    ensures n.Some? ==> n.value < |mem| && mem[n.value] == 0 && forall i | 0 <= i < n.value :: mem[i] != 0
  {
    if mem == [] then None
    else if mem[0] == 0 then Some(0)
    else match CStrLen(mem[1..])
      case None => None
      case Some(k) => Some(k + 1)
  }

  /** The remainder is taken from the message rebuilt as a C string, whatever `len` is. */
  function SendInLoopChar(c: Conn, mem: Bytes, len: nat, written: int): Conn {
    if len > |mem| then Fail(c)
    else
      var n := TakenDirectly(c, len, written);
      var c1 := Accept(c, mem[..len], n);
      if n == len then c1
      else match CStrLen(mem)
        case None => Fail(c1)
        case Some(end) =>
          if end < n then Fail(c1)
          else EnableWriting(c1.(out := c1.out + mem[n..end]))
  }

  function ShutdownInLoop(c: Conn): Conn {
    if c.events.write then c else c.(halfCloses := c.halfCloses + 1)
  }

  /** send, shutdown: the check of state_, then inline on the loop's thread or through its queue. */
  function Send(c: Conn, msg: Bytes, inLoop: bool, written: int): Conn {
    if c.state != Connected then c
    else if inLoop then SendInLoop(c, msg, written)
    else c.(queue := c.queue + [SendTask(msg)])
  }

  function SendChars(c: Conn, mem: Bytes, len: nat, inLoop: bool, written: int): Conn {
    if c.state != Connected then c
    else if inLoop then SendInLoopChar(c, mem, len, written)
    else c.(queue := c.queue + [SendCharsTask(mem, len)])
  }

  function Shutdown(c: Conn, inLoop: bool): Conn {
    if c.state != Connected then c
    else
      var c1 := c.(state := Disconnecting);
      if inLoop then ShutdownInLoop(c1) else c1.(queue := c1.queue + [ShutdownTask])
  }

  function Perform(c: Conn, act: Act): Conn {
    match act
    case ActSend(msg, written) => Send(c, msg, true, written)
    case ActSendChars(mem, len, written) => SendChars(c, mem, len, true, written)
    case ActShutdown => Shutdown(c, true)
  }

  function PerformAll(c: Conn, acts: seq<Act>): Conn
    decreases acts
  {
    if acts == [] || c.broken then c else PerformAll(Perform(c, acts[0]), acts[1..])
  }

  function HandleWrite(c: Conn, written: int): Conn {
    if !c.events.write || c.out == [] then c
    else
      var n := Taken(|c.out|, written);
      var c1 := c.(wire := c.wire + c.out[..n], out := c.out[n..], writes := c.writes + 1);
      if c1.out != [] then c1
      else
        var c2 := SetEvents(c1, c1.events.(write := false));
        if c2.state == Disconnecting then ShutdownInLoop(c2) else c2
  }

  function HandleClose(c: Conn): Conn {
    if !Live(c) then Fail(c)
    else SetEvents(c, NO_INTEREST).(state := Disconnected, closes := c.closes + 1)
  }

  function HandleRead(c: Conn, r: ReadResult): Conn {
    match r
    case Received(acts) => PerformAll(c, acts)
    case Eof => HandleClose(c)
    case ReadError => c
  }

  /** handleEvent of the connection's channel: close, then read, then write, as the reported
      events ask for them. handleError only logs. POLLNVAL ends the process. */
  function Dispatch(c: Conn, ev: Revents, r: ReadResult, written: int): Conn {
    if ev.nval then Fail(c)
    else
      var c1 := if ev.hup && !ev.pollin then HandleClose(c) else c;
      var c2 := if !c1.broken && (ev.pollin || ev.pri || ev.hup) then HandleRead(c1, r) else c1;
      if !c2.broken && ev.pollout then HandleWrite(c2, written) else c2
  }

  /** connectEstablished; the connection callback then performs `acts`. */
  function Establish(c: Conn, acts: seq<Act>): Conn {
    if c.state != Connecting then Fail(c)
    else PerformAll(SetEvents(c.(state := Connected), c.events.(read := true)), acts)
  }

  predicate Registered(c: Conn) {
    c.calls != [] && c.calls[|c.calls| - 1] != RemoveCall
  }

  /** connectDestroyed; the channel must be in the poller and without interest. */
  function Destroy(c: Conn): Conn {
    var c1 := if Live(c) then SetEvents(c.(state := Disconnected), NO_INTEREST).(closes := c.closes + 1) else c;
    if !Registered(c1) || c1.events != NO_INTEREST then Fail(c1)
    else c1.(calls := c1.calls + [RemoveCall])
  }

  function RunTask(c: Conn, written: int): Conn {
    if c.queue == [] then c
    else
      var c1 := c.(queue := c.queue[1..]);
      match c.queue[0]
      case SendTask(msg) => SendInLoop(c1, msg, written)
      case SendCharsTask(mem, len) => SendInLoopChar(c1, mem, len, written)
      case ShutdownTask => ShutdownInLoop(c1)
  }

  /** One uninterrupted step of the loop's thread, or one call made by another thread. */
  datatype Op =
    | OpEstablish(acts: seq<Act>)
    | OpDispatch(ev: Revents, read: ReadResult, written: int)
    | OpLocal(acts: seq<Act>)
    | OpDestroy
    | OpRunTask(written: int)
    | OpPostSend(msg: Bytes)
    | OpPostSendChars(mem: Bytes, len: nat)
    | OpPostShutdown

  /** poll() reports nothing for a channel without interest. */
  function Step(c: Conn, op: Op): Conn {
    if c.broken then c
    else match op
      case OpEstablish(acts) => Establish(c, acts)
      case OpDispatch(ev, r, written) => if c.events == NO_INTEREST then c else Dispatch(c, ev, r, written)
      case OpLocal(acts) => PerformAll(c, acts)
      case OpDestroy => Destroy(c)
      case OpRunTask(written) => RunTask(c, written)
      case OpPostSend(msg) => Send(c, msg, false, 0)
      case OpPostSendChars(mem, len) => SendChars(c, mem, len, false, 0)
      case OpPostShutdown => Shutdown(c, false)
  }

  function Run(c: Conn, ops: seq<Op>): Conn
    decreases ops
  {
    if ops == [] then c else Run(Step(c, ops[0]), ops[1..])
  }
}
