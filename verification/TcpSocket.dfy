/** Connected TCP sockets. The peer's bytes are the field `incoming`: all it sends, and has not been
    received yet, before it closes. `SysRecv` and `SysSend` stand for the system calls: they move an
    arbitrary non-empty prefix, so every contract below holds under every fragmentation. */
module TcpSockets {
  import opened Wire

  datatype IoError = InvalidSocket | NotConnected | ConnectionWasLost

  datatype IoResult = Done(size: nat) | Failed(error: IoError)

  /** `buffer` with `bytes` written at `offset`. */
  function Overwrite(buffer: seq<byte>, offset: nat, bytes: seq<byte>): (r: seq<byte>)
    requires offset + |bytes| <= |buffer|
    ensures |r| == |buffer|
  {
    buffer[..offset] + bytes + buffer[offset + |bytes|..]
  }

  method CopyBytes(buffer: array<byte>, offset: nat, bytes: seq<byte>)
    requires offset + |bytes| <= buffer.Length
    modifies buffer
    ensures buffer[..] == Overwrite(old(buffer[..]), offset, bytes)
  {
    forall i | 0 <= i < |bytes| {
      buffer[offset + i] := bytes[i];
    }
    assert forall k :: 0 <= k < offset ==> buffer[..][k] == old(buffer[..])[k];
  }

  class TcpSocket {
    var fd: int
    var fdBeforeClose: int
    var connected: bool
    var incoming: seq<byte>
    var outgoing: seq<byte>

    /** A socket that the listener just accepted. */
    constructor Accepted(fd: int, incoming: seq<byte>)
      ensures this.fd == fd && fdBeforeClose == -1 && connected
      ensures this.incoming == incoming && outgoing == []
    {
      this.fd := fd;
      this.fdBeforeClose := -1;
      this.connected := true;
      this.incoming := incoming;
      this.outgoing := [];
    }

    predicate Usable()
      reads this
    {
      fd != -1 && connected
    }

    ghost predicate Closed(formerFd: int)
      reads this
    {
      fd == -1 && fdBeforeClose == formerFd && !connected
    }

    method SysRecv(buffer: array<byte>, offset: nat, size: nat) returns (n: nat)
      requires offset + size <= buffer.Length
      modifies this`incoming, buffer
      ensures n <= size && n <= |old(incoming)|
      ensures n == 0 <==> size == 0 || old(incoming) == []
      ensures incoming == old(incoming)[n..]
      ensures buffer[..] == Overwrite(old(buffer[..]), offset, old(incoming)[..n])
    {
      var available := if size < |incoming| then size else |incoming|;
      if available == 0 {
        n := 0;
      } else {
        n :| 1 <= n <= available;
      }
      CopyBytes(buffer, offset, incoming[..n]);
      incoming := incoming[n..];
    }

    method SysSend(buffer: array<byte>, offset: nat, size: nat) returns (n: nat)
      requires 0 < size && offset + size <= buffer.Length
      modifies this`outgoing
      ensures 0 < n <= size
      ensures outgoing == old(outgoing) + buffer[offset..offset + n]
    {
      n :| 1 <= n <= size;
      outgoing := outgoing + buffer[offset..offset + n];
    }

    method Close()
      modifies this`fd, this`fdBeforeClose, this`connected
      ensures fd == -1 && !connected
      ensures fdBeforeClose == if old(fd) != -1 then old(fd) else old(fdBeforeClose)
    {
      connected := false;
      if fd != -1 {
        fdBeforeClose := fd;
        fd := -1;
      }
    }

    /** One receive into `buffer[offset..offset + size]`. End of stream closes the socket. */
    method Recv(buffer: array<byte>, offset: nat, size: nat) returns (r: IoResult)
      requires offset + size <= buffer.Length
      modifies this, buffer
      ensures outgoing == old(outgoing)
      ensures old(fd) == -1 ==> r == Failed(InvalidSocket)
      ensures old(fd) != -1 && !old(connected) ==> r == Failed(NotConnected)
      ensures !old(Usable()) ==> unchanged(this) && buffer[..] == old(buffer[..])
      ensures old(Usable()) && (size == 0 || old(incoming) == []) ==>
                && r == Failed(ConnectionWasLost) && Closed(old(fd))
                && incoming == old(incoming) && buffer[..] == old(buffer[..])
      ensures old(Usable()) && size > 0 && old(incoming) != [] ==>
                && r.Done? && 0 < r.size <= size && r.size <= |old(incoming)|
                && incoming == old(incoming)[r.size..]
                && buffer[..] == Overwrite(old(buffer[..]), offset, old(incoming)[..r.size])
                && fd == old(fd) && Usable()
    {
      if fd == -1 {
        return Failed(InvalidSocket);
      }
      if !connected {
        return Failed(NotConnected);
      }
      var n := SysRecv(buffer, offset, size);
      if n == 0 {
        Close();
        return Failed(ConnectionWasLost);
      }
      r := Done(n);
    }

    /** Receives exactly `size` bytes, however the stream is fragmented. */
    method RecvAll(buffer: array<byte>, size: nat) returns (r: IoResult)
      requires size <= buffer.Length
      modifies this, buffer
      ensures outgoing == old(outgoing)
      ensures old(fd) == -1 ==> r == Failed(InvalidSocket)
      ensures old(fd) != -1 && !old(connected) ==> r == Failed(NotConnected)
      ensures old(Usable()) ==> (r.Done? <==> size <= |old(incoming)|)
      ensures old(Usable()) && r.Done? ==>
                && incoming == old(incoming)[size..]
                && buffer[..size] == old(incoming)[..size]
                && buffer[size..] == old(buffer[size..])
                && fd == old(fd) && Usable()
      ensures old(Usable()) && r.Failed? ==>
                r == Failed(ConnectionWasLost) && incoming == [] && Closed(old(fd))
    {
      if fd == -1 {
        return Failed(InvalidSocket);
      }
      if !connected {
        return Failed(NotConnected);
      }
      var received := 0;
      while received < size
        invariant 0 <= received <= size && received <= |old(incoming)|
        invariant incoming == old(incoming)[received..]
        invariant buffer[..received] == old(incoming)[..received]
        invariant buffer[size..] == old(buffer[size..])
        invariant fd == old(fd) && Usable() && outgoing == old(outgoing)
      {
        var remaining := size - received;
        ghost var written := buffer[..];
        var n := SysRecv(buffer, received, remaining);
        if n == 0 {
          Close();
          return Failed(ConnectionWasLost);
        }
        assert buffer[..received + n] == written[..received] + old(incoming)[received..received + n];
        assert buffer[size..] == written[size..];
        received := received + n;
      }
      r := Done(size);
    }

    /** Sends exactly `buffer[..size]`, however the kernel fragments it. */
    method SendAll(buffer: array<byte>, size: nat) returns (r: IoResult)
      requires size <= buffer.Length
      modifies this`outgoing
      ensures fd == -1 ==> r == Failed(InvalidSocket)
      ensures fd != -1 && !connected ==> r == Failed(NotConnected)
      ensures Usable() <==> r == Done(size)
      ensures outgoing == old(outgoing) + if Usable() then buffer[..size] else []
    {
      if fd == -1 {
        return Failed(InvalidSocket);
      }
      if !connected {
        return Failed(NotConnected);
      }
      var sent := 0;
      while sent < size
        invariant 0 <= sent <= size
        invariant outgoing == old(outgoing) + buffer[..sent]
      {
        var remaining := size - sent;
        var n := SysSend(buffer, sent, remaining);
        assert buffer[..sent] + buffer[sent..sent + n] == buffer[..sent + n];
        sent := sent + n;
      }
      r := Done(size);
    }
  }
}
