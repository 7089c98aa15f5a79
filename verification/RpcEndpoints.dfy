/** RPC_Server::onMessage and RPC_Client::onMessage as the objects run them. */
module RpcEndpoints {
  import opened Common
  import F = Framing

  class RpcServer {
    const signedChar: bool
    var readBuffers: map<F.ConnId, Bytes>
    var readBytes: map<F.ConnId, nat>
    // The calls of handle_request, with the buffer each was given.
    ghost var requests: seq<(F.ConnId, Bytes)>

    constructor (signedChar: bool)
      ensures View() == F.NO_MESSAGES && this.signedChar == signedChar
    {
      this.signedChar := signedChar;
      readBuffers, readBytes, requests := map[], map[], [];
    }

    ghost function View(): F.Server
      reads this
    {
      F.Server(readBuffers, readBytes, requests)
    }

    /** operator[] of the maps: a missing entry is created empty. */
    method TouchBuffer(conn: F.ConnId)
      modifies this`readBuffers
      ensures readBuffers == if conn in old(readBuffers) then old(readBuffers) else old(readBuffers)[conn := []]
    {
      if conn !in readBuffers {
        readBuffers := readBuffers[conn := []];
      }
    }

    method TouchBytes(conn: F.ConnId)
      modifies this`readBytes
      ensures readBytes == if conn in old(readBytes) then old(readBytes) else old(readBytes)[conn := 0]
    {
      if conn !in readBytes {
        readBytes := readBytes[conn := 0];
      }
    }

    method OnMessage(conn: F.ConnId, buf: Bytes)
      modifies this
      ensures View() == F.OnMessage(old(View()), conn, buf, signedChar)
    {
      if conn !in readBuffers {
        if |buf| >= 4 {
          var bytes := ParseHeader(buf, signedChar);
          readBytes := readBytes[conn := bytes];
          TouchBuffer(conn);
          readBuffers := readBuffers[conn := readBuffers[conn] + buf[4..]];
          assert [] + buf[4..] == buf[4..];
        }
      } else {
        TouchBuffer(conn);
        readBuffers := readBuffers[conn := readBuffers[conn] + buf];
      }
      TouchBuffer(conn);
      TouchBytes(conn);
      assert readBuffers == old(readBuffers)[conn := readBuffers[conn]];
      assert readBytes == old(readBytes)[conn := readBytes[conn]];
      if |readBuffers[conn]| == readBytes[conn] {
        requests := requests + [(conn, readBuffers[conn])];
      }
    }
  }

  /** The four additions, each wrapping around at 32 bits. */
  method ParseHeader(buf: Bytes, signedChar: bool) returns (bytes: nat)
    requires |buf| >= 4
    ensures bytes == F.Declared(buf, signedChar)
  {
    var b0, b1 := F.CharValue(buf[0], signedChar) * 0x100_0000, F.CharValue(buf[1], signedChar) * 0x1_0000;
    var b2, b3 := F.CharValue(buf[2], signedChar) * 0x100, F.CharValue(buf[3], signedChar);
    bytes := b0 % F.TWO32;
    bytes := (bytes + b1) % F.TWO32;
    Wraps(b0, b1);
    bytes := (bytes + b2) % F.TWO32;
    Wraps(b0 + b1, b2);
    bytes := (bytes + b3) % F.TWO32;
    Wraps(b0 + b1 + b2, b3);
  }

  /** Wrapping around early makes no difference. */
  lemma Wraps(x: int, y: int)
    ensures (x % F.TWO32 + y) % F.TWO32 == (x + y) % F.TWO32
  {
    var q := x / F.TWO32;
    assert x == q * F.TWO32 + x % F.TWO32;
    var z := x % F.TWO32 + y;
    assert z == (z / F.TWO32) * F.TWO32 + z % F.TWO32;
    assert x + y == (q + z / F.TWO32) * F.TWO32 + z % F.TWO32;
  }

  class RpcClient {
    const signedChar: bool
    var readBytes: nat
    var readBuffer: Bytes
    ghost var notified: nat

    constructor (signedChar: bool)
      ensures View() == F.NO_REPLY && this.signedChar == signedChar
    {
      this.signedChar := signedChar;
      readBytes, readBuffer, notified := 0, [], 0;
    }

    ghost function View(): F.Client
      reads this
    {
      F.Client(readBytes, readBuffer, notified)
    }

    method OnMessage(buffer: Bytes)
      modifies this
      ensures View() == F.OnReply(old(View()), buffer, signedChar)
    {
      if readBytes == 0 {
        if |buffer| >= 4 {
          var bytes := ParseHeader(buffer, signedChar);
          readBytes := bytes;
          readBuffer := readBuffer + buffer[4..];
        }
      } else {
        readBuffer := readBuffer + buffer;
        if |readBuffer| == readBytes {
          notified := notified + 1;
        }
      }
    }
  }
}
