/** The TcpConnection object. Every handler is proved to take the object's state where the
    state machine of module Connections goes; a precondition is an assert of the source, or
    the demand that undefined behaviour is not reached. */
module TcpConnections {
  import opened Common
  import opened Channels
  import C = Connections

  class TcpConnection {
    var state: C.State
    const channel: Channel
    var outputBuffer: Bytes
    // Functors bound to this connection in its loop's queue.
    var queued: seq<C.Task>
    // What the system calls and the close callback have seen.
    ghost var wire: Bytes
    ghost var accepted: Bytes
    ghost var writes: nat
    ghost var halfCloses: nat
    ghost var closes: nat

    constructor (fd: int)
      ensures View() == C.FRESH && fresh(channel) && channel.fd == fd
    {
      state := C.Connecting;
      channel := new Channel(fd);
      outputBuffer := [];
      queued := [];
      wire, accepted := [], [];
      writes, halfCloses, closes := 0, 0, 0;
    }

    ghost function View(): C.Conn
      reads this, channel
    {
      C.Conn(state, channel.events, outputBuffer, queued, wire, accepted, writes, halfCloses, closes, channel.calls, false)
    }

    /** write(): some of `data`, or an error, as the kernel pleases. */
    method SysWrite(data: Bytes, written: int) returns (result: int)
      modifies this`wire, this`writes
      ensures result <= |data|
      ensures writes == old(writes) + 1
      ensures C.Taken(|data|, written) == (if result < 0 then 0 else result)
      ensures written > 0 ==> (result > 0 <==> data != [])
      ensures written <= 0 ==> result <= 0
      ensures wire == old(wire) + data[..C.Taken(|data|, written)]
    {
      result := Min(written, |data|);
      wire := wire + data[..C.Taken(|data|, written)];
      writes := writes + 1;
    }

    method HandleWrite(written: int)
      modifies this, channel
      ensures View() == C.HandleWrite(old(View()), written)
    {
      if channel.IsWriting() && outputBuffer != [] {
        var bytesWrote := SysWrite(outputBuffer, written);
        if bytesWrote > 0 {
          outputBuffer := outputBuffer[bytesWrote..];
          if outputBuffer == [] {
            channel.DisableWriting();
            if state == C.Disconnecting {
              ShutdownInLoop();
            }
          }
        }
      }
    }

    method HandleClose()
      requires state == C.Connected || state == C.Disconnecting
      modifies this, channel
      ensures View() == C.HandleClose(old(View()))
    {
      channel.DisableAll();
      state := C.Disconnected;
      closes := closes + 1;
    }

    method HandleRead(r: C.ReadResult)
      requires !C.HandleRead(View(), r).broken
      modifies this, channel
      ensures View() == C.HandleRead(old(View()), r)
    {
      match r {
        case Received(acts) => UserCallback(acts);
        case Eof => HandleClose();
        case ReadError =>
      }
    }

    /** handleEvent of the channel, with this object's handlers as callbacks. */
    method HandleEvent(ev: Revents, r: C.ReadResult, written: int)
      requires !C.Dispatch(View(), ev, r, written).broken
      modifies this, channel
      ensures View() == C.Dispatch(old(View()), ev, r, written)
    {
      if ev.hup && !ev.pollin {
        HandleClose();
      }
      if ev.pollin || ev.pri || ev.hup {
        HandleRead(r);
      }
      if ev.pollout {
        HandleWrite(written);
      }
    }

    method ConnectEstablished(acts: seq<C.Act>)
      requires state == C.Connecting
      requires !C.Establish(View(), acts).broken
      modifies this, channel
      ensures View() == C.Establish(old(View()), acts)
    {
      state := C.Connected;
      channel.EnableReading();
      UserCallback(acts);
    }

    method ConnectDestroyed()
      requires !C.Destroy(View()).broken
      modifies this, channel
      ensures View() == C.Destroy(old(View()))
    {
      if state == C.Connected || state == C.Disconnecting {
        state := C.Disconnected;
        channel.DisableAll();
        closes := closes + 1;
      }
      channel.Remove();
    }

    method Shutdown(inLoop: bool)
      modifies this
      ensures View() == C.Shutdown(old(View()), inLoop)
    {
      if state == C.Connected {
        state := C.Disconnecting;
        if inLoop {
          ShutdownInLoop();
        } else {
          queued := queued + [C.ShutdownTask];
        }
      }
    }

    method ShutdownInLoop()
      modifies this
      ensures View() == C.ShutdownInLoop(old(View()))
    {
      if !channel.IsWriting() {
        halfCloses := halfCloses + 1;
      }
    }

    method Send(message: Bytes, inLoop: bool, written: int)
      modifies this, channel
      ensures View() == C.Send(old(View()), message, inLoop, written)
    {
      if state == C.Connected {
        if inLoop {
          SendInLoop(message, written);
        } else {
          queued := queued + [C.SendTask(message)];
        }
      }
    }

    method SendChars(mem: Bytes, len: nat, inLoop: bool, written: int)
      requires !C.SendChars(View(), mem, len, inLoop, written).broken
      modifies this, channel
      ensures View() == C.SendChars(old(View()), mem, len, inLoop, written)
    {
      if state == C.Connected {
        if inLoop {
          SendInLoopChar(mem, len, written);
        } else {
          queued := queued + [C.SendCharsTask(mem, len)];
        }
      }
    }

    method SendInLoop(message: Bytes, written: int)
      modifies this, channel
      ensures View() == C.SendInLoop(old(View()), message, written)
    {
      var bytesWrote := 0;
      accepted := accepted + message;
      if !channel.IsWriting() && outputBuffer == [] {
        bytesWrote := SysWrite(message, written);
        if bytesWrote < 0 {
          bytesWrote := 0;
        }
      }
      if bytesWrote < |message| {
        outputBuffer := outputBuffer + message[bytesWrote..];
        if !channel.IsWriting() {
          channel.EnableWriting();
        }
      }
    }

    method SendInLoopChar(mem: Bytes, len: nat, written: int)
      requires !C.SendInLoopChar(View(), mem, len, written).broken
      modifies this, channel
      ensures View() == C.SendInLoopChar(old(View()), mem, len, written)
    {
      var bytesWrote := 0;
      accepted := accepted + mem[..len];
      if !channel.IsWriting() && outputBuffer == [] {
        bytesWrote := SysWrite(mem[..len], written);
        if bytesWrote < 0 {
          bytesWrote := 0;
        }
      }
      if bytesWrote < len {
        var end := StrLen(mem);
        outputBuffer := outputBuffer + mem[bytesWrote..end];
        if !channel.IsWriting() {
          channel.EnableWriting();
        }
      }
    }

    /** The loop runs the next functor queued for this connection. */
    method RunQueued(written: int)
      requires !C.RunTask(View(), written).broken
      modifies this, channel
      ensures View() == C.RunTask(old(View()), written)
    {
      if queued != [] {
        var task := queued[0];
        queued := queued[1..];
        match task {
          case SendTask(msg) => SendInLoop(msg, written);
          case SendCharsTask(mem, len) => SendInLoopChar(mem, len, written);
          case ShutdownTask => ShutdownInLoop();
        }
      }
    }

    /** User code called back on the loop's thread. */
    method UserCallback(acts: seq<C.Act>)
      requires !C.PerformAll(View(), acts).broken
      modifies this, channel
      ensures View() == C.PerformAll(old(View()), acts)
    {
      var i := 0;
      while i < |acts|
        invariant i <= |acts|
        invariant C.PerformAll(View(), acts[i..]) == C.PerformAll(old(View()), acts)
      {
        assert acts[i..][1..] == acts[i + 1..];
        assert !C.Perform(View(), acts[i]).broken;
        match acts[i] {
          case ActSend(msg, written) => Send(msg, true, written);
          case ActSendChars(mem, len, written) => SendChars(mem, len, true, written);
          case ActShutdown => Shutdown(true);
        }
        i := i + 1;
      }
    }
  }

  /** strlen over memory that holds a terminator. */
  method StrLen(mem: Bytes) returns (n: nat)
    requires C.CStrLen(mem).Some?
    ensures n < |mem| && mem[n] == 0 && forall i | 0 <= i < n :: mem[i] != 0
    ensures C.CStrLen(mem) == Some(n)
  {
    n := 0;
    while mem[n] != 0
      invariant n <= C.CStrLen(mem).value
      invariant forall i | 0 <= i < n :: mem[i] != 0
      decreases |mem| - n
    {
      n := n + 1;
    }
  }
}
