/** Blocking transfer of one Protobuf message over a connected socket. */
module Messages {
  import opened Wire
  import opened TcpSockets

  /** Result of `read_message`; the errors are the exceptions it throws. */
  datatype Received =
    | Content(content: seq<byte>)
    | BadSize(size: nat)
    | BadContent(content: seq<byte>)
    | IoFailure(error: IoError)

  /** Result of `write_message`. */
  datatype WriteResult =
    | Written
    | NotSerialized
    | WriteFailed(error: IoError)

  /** Appends exactly one frame to what the socket sends, unless Protobuf refuses the size; then nothing
      is sent. No other size is refused. */
  method WriteMessage(content: seq<byte>, socket: TcpSocket) returns (r: WriteResult)
    modifies socket`outgoing
    ensures r == NotSerialized <==> |content| > MAX_PROTOBUF_SIZE
    ensures |content| <= MAX_PROTOBUF_SIZE ==>
              if socket.fd == -1 then r == WriteFailed(InvalidSocket)
              else if !socket.connected then r == WriteFailed(NotConnected)
              else r == Written
    ensures socket.outgoing == old(socket.outgoing) + if r.Written? then Frame(content) else []
  {
    var contentSize := |content| % 0x1_0000_0000;
    var messageSize := (contentSize + 4) % 0x1_0000_0000;
    var buffer := new byte[messageSize](i => 0);
    if messageSize >= 4 {
      CopyBytes(buffer, 0, EncodeHeader(contentSize));
    }
    if |content| > MAX_PROTOBUF_SIZE {
      return NotSerialized;
    }
    assert contentSize == |content| && messageSize == |content| + 4;
    CopyBytes(buffer, 4, content);
    assert buffer[..messageSize] == buffer[..] == Frame(content);
    var io := socket.SendAll(buffer, messageSize);
    r := if io.Failed? then WriteFailed(io.error) else Written;
  }

  /** Reads one frame, exactly as the reference reader does, whatever the fragmentation. */
  method ReadMessage(socket: TcpSocket, parses: Parser) returns (r: Received)
    requires socket.Usable()
    modifies socket
    ensures socket.outgoing == old(socket.outgoing)
    ensures match ReadFrame(old(socket.incoming), parses)
            case Message(content, rest) => r == Content(content) && socket.incoming == rest && socket.Usable()
            case InvalidSize(size, rest) => r == BadSize(size) && socket.incoming == rest && socket.Usable()
            case Undecodable(content, rest) => r == BadContent(content) && socket.incoming == rest && socket.Usable()
            case ConnectionLost(rest) =>
              r == IoFailure(ConnectionWasLost) && socket.incoming == rest && socket.Closed(old(socket.fd))
  {
    ghost var stream := socket.incoming;
    var header := new byte[4](i => 0);
    var io := socket.RecvAll(header, 4);
    if io.Failed? {
      return IoFailure(io.error);
    }
    assert header[..] == stream[..4];
    var contentSize := DecodeHeader(header[..]);
    if contentSize >= MAX_CONTENT_SIZE {
      return BadSize(contentSize);
    }
    if contentSize == 0 {
      return Content([]);
    }
    var content := new byte[contentSize](i => 0);
    io := socket.RecvAll(content, contentSize);
    if io.Failed? {
      return IoFailure(io.error);
    }
    assert content[..] == content[..contentSize] == stream[4..][..contentSize] == stream[4..4 + contentSize];
    assert stream[4..][contentSize..] == stream[4 + contentSize..];
    if !parses(content[..]) {
      return BadContent(content[..]);
    }
    r := Content(content[..]);
  }
}
