/** The Connector and TcpClient objects, proved to follow the machines of modules Connectors and
    TcpClientMachine. The requests that arrive during a sleep are its parameter. */
module ConnectorObjects {
  import opened Common
  import opened Channels
  import K = Connectors
  import M = TcpClientMachine

  class Connector {
    var connect: bool
    var state: K.State
    var channel: Option<nat>
    var retryDelayMs: nat
    var queue: seq<K.Request>
    // Sockets opened, given up and handed over so far, the sleeps, and what was asked of the poller.
    ghost var closed: seq<nat>
    ghost var handed: seq<nat>
    ghost var sleeps: seq<nat>
    ghost var asked: seq<(nat, PollCall)>
    var sockets: nat

    constructor ()
      ensures View() == K.IDLE
    {
      connect, state, channel, retryDelayMs := false, K.Disconnected, None, K.INIT_RETRY_DELAY_MS;
      queue, closed, handed, sleeps, asked, sockets := [], [], [], [], [], 0;
    }

    ghost function View(): K.Connector
      reads this
    {
      K.Connector(connect, state, channel, retryDelayMs, queue, sockets, closed, handed, sleeps, asked, false)
    }

    method SysClose(fd: nat)
      modifies this`closed
      ensures View() == K.Close(old(View()), fd)
    {
      closed := closed + [fd];
    }

    /** Other threads call start() and stop(). */
    method Arrive(reqs: seq<K.Request>)
      modifies this`connect, this`queue
      ensures View() == K.Post(old(View()), reqs)
    {
      var i := 0;
      while i < |reqs|
        invariant i <= |reqs|
        invariant K.Post(View(), reqs[i..]) == K.Post(old(View()), reqs)
      {
        assert reqs[i..][1..] == reqs[i + 1..];
        connect := reqs[i] == K.StartRequest;
        queue := queue + [reqs[i]];
        i := i + 1;
      }
    }

    /** start(): on the loop's thread its functor runs at once. */
    method Start(inLoop: bool, a: K.Attempts)
      requires inLoop ==> state == K.Disconnected && !K.StartInLoop(View().(connect := true), a).broken
      modifies this
      ensures View() == if inLoop then K.StartInLoop(old(View()).(connect := true), a)
                        else K.Post(old(View()), [K.StartRequest])
    {
      connect := true;
      if inLoop {
        StartInLoop(a);
      } else {
        queue := queue + [K.StartRequest];
      }
    }

    method Stop(inLoop: bool, during: seq<K.Request>, next: K.Attempts)
      requires state == K.Connecting ==> channel.Some?
      requires inLoop ==> !K.StopInLoop(View().(connect := false), during, next).broken
      modifies this
      ensures View() == if inLoop then K.StopInLoop(old(View()).(connect := false), during, next)
                        else K.Post(old(View()), [K.StopRequest])
    {
      connect := false;
      if inLoop {
        StopInLoop(during, next);
      } else {
        queue := queue + [K.StopRequest];
      }
    }

    method StartInLoop(a: K.Attempts)
      requires state == K.Disconnected
      requires !K.StartInLoop(View(), a).broken
      modifies this
      ensures View() == K.StartInLoop(old(View()), a)
      decreases a, 2
    {
      if connect {
        Connect(a);
      }
    }

    method Connect(a: K.Attempts)
      requires !K.Connect(View(), a).broken
      modifies this
      ensures View() == K.Connect(old(View()), a)
      decreases a, 1
    {
      var fd := sockets;
      sockets := sockets + 1;
      match a {
        case InProgress => BeginConnecting(fd);
        case Fatal => SysClose(fd);
        case Refused(during, next) => Retry(fd, during, next);
      }
    }

    method BeginConnecting(fd: nat)
      requires channel == None
      modifies this
      ensures View() == K.BeginConnecting(old(View()), fd)
    {
      state := K.Connecting;
      channel := Some(fd);
      asked := asked + [(fd, UpdateCall(K.WRITING))];
    }

    method Retry(fd: nat, during: seq<K.Request>, next: K.Attempts)
      requires !K.Retry(View(), fd, during, next).broken
      modifies this
      ensures View() == K.Retry(old(View()), fd, during, next)
      decreases next, 3
    {
      SysClose(fd);
      state := K.Disconnected;
      if connect {
        sleeps := sleeps + [retryDelayMs * 1000];
        ghost var asleep := View();
        Arrive(during);
        K.PostKeeps(asleep, during);
        StartInLoop(next);
        retryDelayMs := Min(retryDelayMs * 2, K.MAX_RETRY_DELAY_MS);
      }
    }

    method RemoveAndResetChannel() returns (fd: nat)
      requires channel.Some?
      modifies this`channel, this`asked
      ensures View() == K.DropChannel(old(View())) && Some(fd) == old(channel)
    {
      fd := channel.value;
      asked := asked + [(fd, UpdateCall(NO_INTEREST))];
      asked := asked + [(fd, RemoveCall)];
      channel := None;
    }

    /** The socket that newConnectionCallback_ is given, if it is called. */
    method HandleWrite() returns (given: Option<nat>)
      requires state == K.Connecting ==> channel.Some?
      modifies this
      ensures View() == K.HandleWrite(old(View()))
      ensures given == if old(state) == K.Connecting && old(connect) then old(channel) else None
      ensures handed == match given { case None => old(handed) case Some(fd) => old(handed) + [fd] }
    {
      given := None;
      if state == K.Connecting {
        var fd := RemoveAndResetChannel();
        state := K.Connected;
        if connect {
          handed := handed + [fd];
          given := Some(fd);
        } else {
          SysClose(fd);
        }
      }
    }

    method HandleError(during: seq<K.Request>, next: K.Attempts)
      requires state == K.Connecting ==> channel.Some?
      requires !K.HandleError(View(), during, next).broken
      modifies this
      ensures View() == K.HandleError(old(View()), during, next)
    {
      if state == K.Connecting {
        var fd := RemoveAndResetChannel();
        Retry(fd, during, next);
      }
    }

    method StopInLoop(during: seq<K.Request>, next: K.Attempts)
      requires state == K.Connecting ==> channel.Some?
      requires !K.StopInLoop(View(), during, next).broken
      modifies this
      ensures View() == K.StopInLoop(old(View()), during, next)
    {
      if state == K.Connecting {
        state := K.Disconnected;
        var fd := RemoveAndResetChannel();
        Retry(fd, during, next);
      }
    }

    method Restart(a: K.Attempts)
      requires !K.Restart(View(), a).broken
      modifies this
      ensures View() == K.Restart(old(View()), a)
    {
      state := K.Disconnected;
      retryDelayMs := K.INIT_RETRY_DELAY_MS;
      connect := true;
      StartInLoop(a);
    }
  }

  class TcpClient {
    const connector: Connector
    var wanted: bool
    var retry: bool
    var connection: Option<nat>
    var nextConnId: nat
    // Connections whose close callback is still to come.
    ghost var open: set<nat>
    // The sockets connections were made of, and the connections established, destroyed and shut down.
    ghost var sockets: seq<nat>
    ghost var established: seq<nat>
    ghost var destroyed: seq<nat>
    ghost var shutdowns: seq<nat>

    constructor ()
      ensures View() == M.NEW_CLIENT && fresh(connector)
    {
      connector := new Connector();
      wanted, retry, connection, nextConnId, open := false, false, None, 1, {};
      sockets, established, destroyed, shutdowns := [], [], [], [];
    }

    ghost function View(): M.Client
      reads this, connector
    {
      M.Client(connector.View(), wanted, retry, connection, open, nextConnId, sockets, established, destroyed, shutdowns, false)
    }

    method Connect(inLoop: bool, a: K.Attempts)
      requires inLoop ==> connector.state == K.Disconnected && !M.Step(View(), M.ConnectOp(true, a)).broken
      modifies this, connector
      ensures View() == M.Step(old(View()), M.ConnectOp(inLoop, a))
    {
      wanted := true;
      connector.Start(inLoop, a);
    }

    method Stop(inLoop: bool, during: seq<K.Request>, next: K.Attempts)
      requires connector.state == K.Connecting ==> connector.channel.Some?
      requires inLoop ==> !M.Step(View(), M.StopOp(true, during, next)).broken
      modifies this, connector
      ensures View() == M.Step(old(View()), M.StopOp(inLoop, during, next))
    {
      wanted := false;
      connector.Stop(inLoop, during, next);
    }

    method Disconnect()
      modifies this`wanted, this`shutdowns
      ensures View() == M.Step(old(View()), M.DisconnectOp)
    {
      wanted := false;
      if connection.Some? {
        shutdowns := shutdowns + [connection.value];
      }
    }

    method EnableRetry()
      modifies this`retry
      ensures View() == M.Step(old(View()), M.EnableRetryOp)
    {
      retry := true;
    }

    method NewConnection(sockfd: nat)
      modifies this
      ensures View() == M.NewConnection(old(View()), sockfd)
    {
      var conn := nextConnId;
      nextConnId := nextConnId + 1;
      sockets := sockets + [sockfd];
      connection := Some(conn);
      open := open + {conn};
      ConnectEstablished(conn);
    }

    /** The connection's own calls are module TcpConnections'. */
    method ConnectEstablished(conn: nat)
      modifies this`established
      ensures established == old(established) + [conn]
    {
      established := established + [conn];
    }

    method ConnectDestroyed(conn: nat)
      modifies this`destroyed
      ensures destroyed == old(destroyed) + [conn]
    {
      destroyed := destroyed + [conn];
    }

    /** The connector's channel is writable. */
    method OnWritable()
      requires connector.state == K.Connecting ==> connector.channel.Some?
      modifies this, connector
      ensures View() == M.OnWritable(old(View()))
    {
      var given := connector.HandleWrite();
      if given.Some? {
        NewConnection(given.value);
      }
    }

    method RemoveConnection(conn: nat, a: K.Attempts)
      requires connection == Some(conn)
      requires !M.RemoveConnection(View(), conn, a).broken
      modifies this, connector
      ensures View() == M.RemoveConnection(old(View()), conn, a)
    {
      connection := None;
      open := open - {conn};
      ConnectDestroyed(conn);
      if retry && wanted {
        connector.Restart(a);
      }
    }
  }
}
