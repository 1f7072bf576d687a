/** Incremental reader for sockets that were just accepted: the command thread may not block until a
    whole message has arrived, so each visit takes what the socket gives and remembers where it was. */
module BarelyConnected {
  import opened Wire
  import opened TcpSockets

  class BarelyConnectedSocketInformation {
    var bytesRead: nat
    /** The storage of the `content_size` field, filled byte by byte. */
    var sizeBytes: array<byte>
    /** Allocated once the header is complete; an empty array stands for the null pointer. */
    var contentBuffer: array<byte>

    constructor ()
      ensures Valid() && Consumed() == []
      ensures fresh(sizeBytes) && fresh(contentBuffer)
    {
      bytesRead := 0;
      sizeBytes := new byte[4](i => 0);
      contentBuffer := new byte[0];
    }

    function ContentSize(): (size: nat)
      requires sizeBytes.Length == HEADER_SIZE
      reads this, sizeBytes
    {
      DecodeHeader(sizeBytes[..])
    }

    ghost predicate Shape()
      reads this
    {
      sizeBytes.Length == HEADER_SIZE && sizeBytes != contentBuffer
    }

    /** The part of the frame that was received. */
    ghost function Consumed(): (bytes: seq<byte>)
      requires Shape() && bytesRead <= HEADER_SIZE + contentBuffer.Length
      reads this, sizeBytes, contentBuffer
      ensures |bytes| == bytesRead
    {
      if bytesRead <= HEADER_SIZE then sizeBytes[..bytesRead]
      else sizeBytes[..] + contentBuffer[..bytesRead - HEADER_SIZE]
    }

    /** An entry that may be visited again. */
    ghost predicate Valid()
      reads this, sizeBytes, contentBuffer
    {
      && Shape()
      && (bytesRead >= HEADER_SIZE ==>
            && ContentSize() < MAX_CONTENT_SIZE
            && contentBuffer.Length == ContentSize()
            && bytesRead < HEADER_SIZE + ContentSize())
    }

    lemma ValidIsIncomplete()
      requires Valid()
      ensures Incomplete(Consumed())
    {
      if bytesRead >= HEADER_SIZE {
        assert Consumed()[..HEADER_SIZE] == sizeBytes[..];
      }
    }
  }

  /** `content_size - bytes_read + 4`: computed on 64-bit unsigned integers, stored in 32 bits. */
  function RemainingContentSize(contentSize: nat, bytesRead: nat): (remaining: nat)
    requires contentSize < 0x1_0000_0000 && bytesRead < 0x1_0000_0000_0000_0000
  {
    ((contentSize - bytesRead) % 0x1_0000_0000_0000_0000 + 4) % 0x1_0000_0000_0000_0000 % 0x1_0000_0000
  }

  /** The subtraction wraps whenever the content is shorter than the header, and yet the result is
      the true number of missing bytes: between 1 and the content size. */
  lemma RemainingContentSizeIsExact(contentSize: nat, bytesRead: nat)
    requires contentSize < MAX_CONTENT_SIZE
    requires HEADER_SIZE <= bytesRead < HEADER_SIZE + contentSize
    ensures RemainingContentSize(contentSize, bytesRead) == HEADER_SIZE + contentSize - bytesRead
    ensures 1 <= RemainingContentSize(contentSize, bytesRead) <= contentSize
  {
    var wide := 0x1_0000_0000_0000_0000;
    var d := contentSize - bytesRead;
    if d < 0 {
      assert d % wide == d + wide;
      assert (d + wide + 4) % wide == d + 4;
    }
  }

  /** First half of a visit: takes more of the header. */
  method ReceiveHeader(socket: TcpSocket, info: BarelyConnectedSocketInformation) returns (received: bool)
    requires socket.Usable()
    requires info.Valid() && info.bytesRead < HEADER_SIZE
    modifies socket, info`bytesRead, info.sizeBytes
    ensures info.bytesRead <= HEADER_SIZE
    ensures info.Consumed() + socket.incoming == old(info.Consumed() + socket.incoming)
    ensures socket.outgoing == old(socket.outgoing)
    ensures received ==> info.bytesRead > old(info.bytesRead) && socket.Usable() && socket.fd == old(socket.fd)
    ensures !received ==> socket.incoming == [] && info.bytesRead == old(info.bytesRead) && socket.Closed(old(socket.fd))
  {
    ghost var all := info.Consumed() + socket.incoming;
    var remainingHeaderSize := (4 - info.bytesRead) % 0x1_0000_0000;
    var io := socket.Recv(info.sizeBytes, info.bytesRead, remainingHeaderSize);
    if io.Failed? {
      return false;
    }
    info.bytesRead := info.bytesRead + io.size;
    assert info.Consumed() == all[..info.bytesRead];
    assert socket.incoming == all[info.bytesRead..];
    received := true;
  }

  lemma MissingContent(before: seq<byte>)
    requires |before| >= HEADER_SIZE && Incomplete(before)
    ensures Missing(before) == HEADER_SIZE + DecodeHeader(before[..HEADER_SIZE]) - |before|
  {
  }

  /** Second half of a visit, once the header is known and the content is not empty. */
  method ReceiveContent(socket: TcpSocket, info: BarelyConnectedSocketInformation, parses: Parser)
    returns (step: Progress)
    requires socket.Usable()
    requires info.Valid() && info.bytesRead >= HEADER_SIZE
    modifies socket, info`bytesRead, info.contentBuffer
    ensures info.Shape() && info.bytesRead <= HEADER_SIZE + info.contentBuffer.Length
    ensures ReadStep(old(info.Consumed()), old(socket.incoming), step, info.Consumed(), socket.incoming, parses)
    ensures step.Pending? ==> info.Valid()
    ensures socket.outgoing == old(socket.outgoing)
    ensures if step.Lost? then socket.Closed(old(socket.fd)) else socket.Usable() && socket.fd == old(socket.fd)
  {
    hide ReadFrame, ReadStep, RemainingContentSize, Incomplete, Missing;
    ghost var before, stream := info.Consumed(), socket.incoming;
    var remaining := RemainingContentSize(info.ContentSize(), info.bytesRead);
    RemainingContentSizeIsExact(info.ContentSize(), info.bytesRead);
    info.ValidIsIncomplete();
    assert before[..HEADER_SIZE] == info.sizeBytes[..];
    var io := socket.Recv(info.contentBuffer, info.bytesRead - 4, remaining);
    if io.Failed? {
      EndOfStream(before, stream, parses);
      return Lost;
    }
    MissingContent(before);
    ContentStep(before, stream, io.size, parses);
    info.bytesRead := info.bytesRead + io.size;
    assert info.Consumed() == before + stream[..io.size];
    if io.size == remaining {
      assert info.contentBuffer[..] == info.Consumed()[HEADER_SIZE..];
      if !parses(info.contentBuffer[..]) {
        return Garbled(info.contentBuffer[..]);
      }
      return Complete(info.contentBuffer[..]);
    }
    step := Pending;
  }

  /** A visit may first finish the header and then take content: both steps count as one. */
  lemma ReadStepsCompose(before: seq<byte>, stream: seq<byte>, middle: seq<byte>, left: seq<byte>, step: Progress,
                         after: seq<byte>, rest: seq<byte>, parses: Parser)
    requires |before| <= |middle| && before + stream == middle + left
    requires ReadStep(middle, left, step, after, rest, parses)
    ensures ReadStep(before, stream, step, after, rest, parses)
  {
  }

  /** One visit. It never receives outside the header storage or the allocated buffer, and it follows
      the reference reader on the bytes assembled so far and the bytes still to come. */
  method HandleBarelyConnectedSocketRead(socket: TcpSocket, info: BarelyConnectedSocketInformation, parses: Parser)
    returns (step: Progress)
    requires socket.Usable()
    requires info.Valid()
    modifies socket, info, info.sizeBytes, info.contentBuffer
    ensures info.Shape() && info.bytesRead <= HEADER_SIZE + info.contentBuffer.Length
    ensures ReadStep(old(info.Consumed()), old(socket.incoming), step, info.Consumed(), socket.incoming, parses)
    ensures step.Pending? ==> info.Valid()
    ensures info.sizeBytes == old(info.sizeBytes)
    ensures info.contentBuffer == old(info.contentBuffer) || fresh(info.contentBuffer)
    ensures socket.outgoing == old(socket.outgoing)
    ensures if step.Lost? then socket.Closed(old(socket.fd)) else socket.Usable() && socket.fd == old(socket.fd)
  {
    ghost var before, stream := info.Consumed(), socket.incoming;
    ghost var all := before + stream;
    var headerRead := info.bytesRead >= 4;
    if !headerRead {
      var received := ReceiveHeader(socket, info);
      if !received {
        return Lost;
      }
      if info.bytesRead >= 4 {
        assert info.sizeBytes[..] == all[..4];
        if info.ContentSize() >= MAX_CONTENT_SIZE {
          return Rejected(info.ContentSize());
        }
        if info.ContentSize() > 0 {
          info.contentBuffer := new byte[info.ContentSize()](i => 0);
        }
        headerRead := true;
      }
    }
    if headerRead {
      assert info.sizeBytes[..] == all[..4];
      if info.ContentSize() == 0 {
        return Complete([]);
      }
      ghost var middle, left := info.Consumed(), socket.incoming;
      step := ReceiveContent(socket, info, parses);
      ReadStepsCompose(before, stream, middle, left, step, info.Consumed(), socket.incoming, parses);
    } else {
      step := Pending;
    }
  }

  /** The traversal revisits the same socket until its message is settled: the iterator only moves
      when a visit erases the entry. The bytes still missing, bounded by 4 + 2^24 before the header is
      known, make this terminate; the outcome and the unread rest are those of the reference reader. */
  method ReadUntilSettled(socket: TcpSocket, info: BarelyConnectedSocketInformation, parses: Parser)
    returns (step: Progress)
    requires socket.Usable()
    requires info.Valid()
    modifies socket, info, info.sizeBytes, info.contentBuffer
    ensures match ReadFrame(old(info.Consumed() + socket.incoming), parses)
            case Message(content, rest) => step == Complete(content) && socket.incoming == rest && socket.Usable()
            case InvalidSize(size, rest) => step == Rejected(size) && socket.incoming == rest && socket.Usable()
            case Undecodable(content, rest) => step == Garbled(content) && socket.incoming == rest && socket.Usable()
            case ConnectionLost(rest) => step == Lost && socket.incoming == rest && socket.Closed(old(socket.fd))
  {
    ghost var all := info.Consumed() + socket.incoming;
    info.ValidIsIncomplete();
    step := Pending;
    while step == Pending
      invariant info.sizeBytes == old(info.sizeBytes)
      invariant info.contentBuffer == old(info.contentBuffer) || fresh(info.contentBuffer)
      invariant step.Pending? ==> info.Valid() && info.Consumed() + socket.incoming == all
      invariant !step.Pending? ==>
                  match step
                  case Complete(content) => ReadFrame(all, parses) == Message(content, socket.incoming)
                  case Rejected(size) => ReadFrame(all, parses) == InvalidSize(size, socket.incoming)
                  case Garbled(content) => ReadFrame(all, parses) == Undecodable(content, socket.incoming)
                  case Lost => ReadFrame(all, parses) == ConnectionLost(socket.incoming)
                  case Pending => true
      invariant if step.Lost? then socket.Closed(old(socket.fd)) else socket.Usable() && socket.fd == old(socket.fd)
      decreases step.Pending?, if step.Pending? && Incomplete(info.Consumed()) then Missing(info.Consumed()) else 0
    {
      info.ValidIsIncomplete();
      ghost var before := info.Consumed();
      step := HandleBarelyConnectedSocketRead(socket, info, parses);
      if step == Pending {
        info.ValidIsIncomplete();
        assert before == info.Consumed()[..|before|];
        MissingShrinks(before, info.Consumed());
      }
    }
  }
}
