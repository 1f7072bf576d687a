/** A client's connection: requests and replies on one socket, and the think time that each request
    carries. */
module Connections {
  import opened Wrappers
  import opened Wire
  import opened TcpSockets
  import opened Messages

  /** Protobuf encoding of a decision with its think time, in seconds. */
  type Encoder = (seq<byte>, real) -> seq<byte>

  /** What the environment says of think times. */
  datatype ThinkTimes = AsMeasured | Constant(seconds: real) | Unreadable

  datatype ConnectError =
    | ConnectNotWritten(cause: WriteResult)
    | AckNotRead(received: Received)
    | BadThinkTime

  /** What comes of a request. */
  datatype Outcome =
    | NotSent(cause: WriteResult)
    | Answer(received: Received)

  lemma {:induction false} FramesSnoc(contents: seq<seq<byte>>, c: seq<byte>)
    requires |c| <= MAX_PROTOBUF_SIZE && forall d :: d in contents ==> |d| <= MAX_PROTOBUF_SIZE
    ensures forall d :: d in contents + [c] ==> |d| <= MAX_PROTOBUF_SIZE
    ensures Frames(contents + [c]) == Frames(contents) + Frame(c)
  {
    if contents == [] {
      assert contents + [c] == [c];
      assert Frames([c]) == Frame(c) + Frames([c][1..]);
    } else {
      assert (contents + [c])[1..] == contents[1..] + [c];
      FramesSnoc(contents[1..], c);
      ConcatIsAssociative(Frame(contents[0]), Frames(contents[1..]), Frame(c));
    }
  }

  lemma ReadFramesCons(stream: seq<byte>, count: nat, first: seq<byte>, rest: seq<byte>, contents: seq<seq<byte>>,
                       left: seq<byte>, parses: Parser)
    requires ReadFrame(stream, parses) == Message(first, rest)
    requires ReadFrames(rest, count, parses) == Some((contents, left))
    ensures ReadFrames(stream, count + 1, parses) == Some(([first] + contents, left))
  {
  }

  lemma ReadFramesUncons(stream: seq<byte>, count: nat, contents: seq<seq<byte>>, left: seq<byte>, parses: Parser)
    returns (first: seq<byte>, rest: seq<byte>, later: seq<seq<byte>>)
    requires count > 0 && ReadFrames(stream, count, parses) == Some((contents, left))
    ensures ReadFrame(stream, parses) == Message(first, rest)
    ensures ReadFrames(rest, count - 1, parses) == Some((later, left)) && contents == [first] + later
  {
    first, rest := ReadFrame(stream, parses).content, ReadFrame(stream, parses).rest;
    later := ReadFrames(rest, count - 1, parses).value.0;
  }

  lemma {:induction false} ReadFramesSnoc(stream: seq<byte>, count: nat, contents: seq<seq<byte>>, rest: seq<byte>,
                                          c: seq<byte>, left: seq<byte>, parses: Parser)
    requires ReadFrames(stream, count, parses) == Some((contents, rest))
    requires ReadFrame(rest, parses) == Message(c, left)
    ensures ReadFrames(stream, count + 1, parses) == Some((contents + [c], left))
    decreases count
  {
    hide ReadFrame;
    if count == 0 {
      ReadFramesCons(stream, 0, c, left, [], left, parses);
      assert [c] + [] == contents + [c];
    } else {
      var first, next, later := ReadFramesUncons(stream, count, contents, rest, parses);
      ReadFramesSnoc(next, count - 1, later, rest, c, left, parses);
      ReadFramesCons(stream, count, first, next, later + [c], left, parses);
      assert [first] + (later + [c]) == contents + [c];
    }
  }

  class Connection {
    const socket: TcpSocket
    const measureThinkTime: bool
    const decisionThinkTime: real
    /** Nanoseconds on a clock that never goes back. */
    var thinkTimeBegin: int

    /** What Protobuf can decode as the acknowledgement of a decision. */
    const parses: Parser

    /** The two streams from the moment when decisions begin, what was written since, and what was read. */
    ghost const sentBefore: seq<byte>
    ghost const fromServer: seq<byte>
    ghost var written: seq<seq<byte>>
    ghost var replies: seq<seq<byte>>

    /** The client has written whole messages. */
    ghost predicate Sent()
      reads this, socket
    {
      && (forall c :: c in written ==> |c| <= MAX_PROTOBUF_SIZE)
      && socket.outgoing == sentBefore + Frames(written)
    }

    /** It has read as many, from the beginning of the server's stream. */
    ghost predicate Answered()
      reads this, socket
    {
      ReadFrames(fromServer, |replies|, parses) == Some((replies, socket.incoming)) && |replies| == |written|
    }

    ghost predicate Valid()
      reads this, socket
    {
      decisionThinkTime >= 0.0 && Sent() && (socket.Usable() ==> Answered())
    }

    /** A socket that is connected already, whatever was said on it before. */
    constructor (socket: TcpSocket, measureThinkTime: bool, decisionThinkTime: real, now: int, parses: Parser)
      requires socket.Usable() && decisionThinkTime >= 0.0
      ensures Valid() && written == [] && thinkTimeBegin == now
      ensures this.socket == socket && this.measureThinkTime == measureThinkTime
      ensures this.decisionThinkTime == decisionThinkTime && this.parses == parses
      ensures sentBefore == socket.outgoing && fromServer == socket.incoming
    {
      this.socket := socket;
      this.measureThinkTime := measureThinkTime;
      this.decisionThinkTime := decisionThinkTime;
      this.thinkTimeBegin := now;
      this.parses := parses;
      this.sentBefore := socket.outgoing;
      this.fromServer := socket.incoming;
      this.written := [];
      this.replies := [];
    }

    /** In seconds: the time since the last reply, measured in nanoseconds, or the constant of the
        environment. It is what the server refuses when negative: it never is. */
    method ThinkTime(now: int) returns (thinkTime: real)
      requires Valid() && (measureThinkTime ==> thinkTimeBegin <= now)
      ensures measureThinkTime ==> thinkTime * 1000000000.0 == (now - thinkTimeBegin) as real
      ensures !measureThinkTime ==> thinkTime == decisionThinkTime
      ensures thinkTime >= 0.0
    {
      if measureThinkTime {
        var elapsed := now - thinkTimeBegin;
        thinkTime := elapsed as real / 1000000000.0;
      } else {
        thinkTime := decisionThinkTime;
      }
    }

    /** One message written, with its place in the history. */
    method Write(content: seq<byte>) returns (r: WriteResult)
      requires Sent()
      modifies this`written, socket`outgoing
      ensures Sent() && written == old(written) + if r.Written? then [content] else []
      ensures r.Written? <==> socket.Usable() && |content| <= MAX_PROTOBUF_SIZE
      ensures socket.outgoing == old(socket.outgoing) + if r.Written? then Frame(content) else []
    {
      r := WriteMessage(content, socket);
      if r.Written? {
        FramesSnoc(written, content);
        ConcatIsAssociative(sentBefore, Frames(written), Frame(content));
        written := written + [content];
      }
    }

    method Read() returns (r: Received)
      requires socket.Usable() && ReadFrames(fromServer, |replies|, parses) == Some((replies, socket.incoming))
      modifies this`replies, socket
      ensures socket.outgoing == old(socket.outgoing)
      ensures r.Content? <==> ReadFrame(old(socket.incoming), parses).Message?
      ensures r.Content? ==> replies == old(replies) + [r.content] && socket.Usable()
      ensures r.Content? ==> ReadFrames(fromServer, |replies|, parses) == Some((replies, socket.incoming))
      ensures r.IoFailure? ==> !socket.Usable()
    {
      ghost var stream := socket.incoming;
      r := ReadMessage(socket, parses);
      if r.Content? {
        ReadFramesSnoc(fromServer, |replies|, replies, stream, r.content, socket.incoming, parses);
        replies := replies + [r.content];
      }
    }

    /** `send_decision`. The reply to the k-th request is the k-th message of the server's stream, and the
        request is one frame, after those of all requests before. A request that Protobuf refuses, or
        that comes after the connection was lost, changes nothing. */
    method SendDecision(request: seq<byte>, encode: Encoder, sentAt: int, repliedAt: int)
      returns (r: Outcome, ghost thinkTime: real)
      requires Valid() && (measureThinkTime ==> thinkTimeBegin <= sentAt)
      modifies this`thinkTimeBegin, this`written, this`replies, socket
      ensures measureThinkTime ==> thinkTime * 1000000000.0 == (sentAt - old(thinkTimeBegin)) as real
      ensures !measureThinkTime ==> thinkTime == decisionThinkTime
      ensures thinkTime >= 0.0 && Sent()
      ensures r.NotSent? <==> !old(socket.Usable()) || |encode(request, thinkTime)| > MAX_PROTOBUF_SIZE
      ensures r.NotSent? ==> Valid() && written == old(written) && socket.outgoing == old(socket.outgoing)
      ensures r.Answer? ==>
                && written == old(written) + [encode(request, thinkTime)]
                && socket.outgoing == old(socket.outgoing) + Frame(encode(request, thinkTime))
      ensures r.Answer? && r.received.Content? ==>
                && Valid() && socket.Usable()
                && ReadFrames(fromServer, |written|, parses).value.0[|old(written)|] == r.received.content
      ensures r.Answer? && r.received.IoFailure? ==> Valid() && !socket.Usable()
      ensures thinkTimeBegin ==
              if r.Answer? && r.received.Content? && measureThinkTime then repliedAt else old(thinkTimeBegin)
    {
      var time := ThinkTime(sentAt);
      thinkTime := time;
      var io := Write(encode(request, time));
      if !io.Written? {
        return NotSent(io), thinkTime;
      }
      var reply := Read();
      if reply.Content? && measureThinkTime {
        thinkTimeBegin := repliedAt;
      }
      r := Answer(reply);
    }

    /** A quit is written if it can be, no reply is read, and the socket is closed in any case. */
    method Disconnect(quit: seq<byte>)
      requires Valid()
      modifies this`written, socket
      ensures Sent() && replies == old(replies) && socket.incoming == old(socket.incoming)
      ensures written == old(written) + if old(socket.Usable()) && |quit| <= MAX_PROTOBUF_SIZE then [quit] else []
      ensures socket.fd == -1 && !socket.connected
    {
      var io := Write(quit);
      socket.Close();
    }
  }

  /** A new connection: CONNECT is written and its acknowledgement read, whatever the acknowledgement
      says. Decisions begin after both, with the socket's streams as the handshake left them. */
  method Connect(socket: TcpSocket, command: seq<byte>, ackParses: Parser, thinkTimes: ThinkTimes, now: int, parses: Parser)
    returns (r: Result<Connection, ConnectError>)
    requires socket.Usable()
    modifies socket
    ensures r.Ok? <==>
              && |command| <= MAX_PROTOBUF_SIZE && ReadFrame(old(socket.incoming), ackParses).Message?
              && (thinkTimes.AsMeasured? || (thinkTimes.Constant? && thinkTimes.seconds >= 0.0))
    ensures r.Ok? ==>
              && fresh(r.value) && r.value.Valid() && r.value.socket == socket
              && r.value.written == [] && r.value.parses == parses
              && r.value.sentBefore == old(socket.outgoing) + Frame(command)
              && r.value.fromServer == ReadFrame(old(socket.incoming), ackParses).rest
              && r.value.measureThinkTime == thinkTimes.AsMeasured? && r.value.thinkTimeBegin == now
              && r.value.decisionThinkTime == if thinkTimes.Constant? then thinkTimes.seconds else 0.0
    ensures socket.outgoing == old(socket.outgoing) + if |command| <= MAX_PROTOBUF_SIZE then Frame(command) else []
  {
    var io := WriteMessage(command, socket);
    if !io.Written? {
      return Err(ConnectNotWritten(io));
    }
    var ack := ReadMessage(socket, ackParses);
    if !ack.Content? {
      return Err(AckNotRead(ack));
    }
    if thinkTimes.Unreadable? || (thinkTimes.Constant? && thinkTimes.seconds < 0.0) {
      return Err(BadThinkTime);
    }
    var seconds := if thinkTimes.Constant? then thinkTimes.seconds else 0.0;
    var connection := new Connection(socket, thinkTimes.AsMeasured?, seconds, now, parses);
    r := Ok(connection);
  }
}
