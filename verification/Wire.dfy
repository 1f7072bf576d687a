/** The byte format spoken on every Remote SimGrid socket: a 32-bit header that holds the content
    size, followed by the content. The source uses the machine's native byte order; the model fixes
    the little-endian one. Contents are Protobuf encodings and stay opaque here: `parses` says which
    non-empty contents Protobuf can decode. */
module Wire {
  import opened Wrappers

  newtype byte = x: int | 0 <= x < 0x100

  const HEADER_SIZE := 4
  const MAX_CONTENT_SIZE := 16777216

  /** Protobuf refuses to serialize larger messages. */
  const MAX_PROTOBUF_SIZE := 0x7fff_ffff

  /** The four bytes that `memcpy(message_content, &content_size, 4)` writes. */
  function EncodeHeader(size: nat): (header: seq<byte>)
    requires size < 0x1_0000_0000
    ensures |header| == HEADER_SIZE
  {
    [(size % 0x100) as byte, (size / 0x100 % 0x100) as byte,
     (size / 0x1_0000 % 0x100) as byte, (size / 0x100_0000) as byte]
  }

  /** The content size stored in four header bytes. */
  function DecodeHeader(header: seq<byte>): (size: nat)
    requires |header| == HEADER_SIZE
    ensures size < 0x1_0000_0000
    ensures size < MAX_CONTENT_SIZE <==> header[3] == 0
  {
    header[0] as int + 0x100 * header[1] as int + 0x1_0000 * header[2] as int + 0x100_0000 * header[3] as int
  }

  /** The value of a little-endian number. */
  function LittleEndian(bytes: seq<byte>): (n: nat) {
    if bytes == [] then 0 else bytes[0] as int + 0x100 * LittleEndian(bytes[1..])
  }

  lemma HeaderIsLittleEndian(header: seq<byte>)
    requires |header| == HEADER_SIZE
    ensures DecodeHeader(header) == LittleEndian(header)
  {
    var b1, b2, b3 := header[1..], header[1..][1..], header[1..][1..][1..];
    assert b3 == [header[3]] && LittleEndian(b3) == header[3] as int;
    assert LittleEndian(b2) == header[2] as int + 0x100 * LittleEndian(b3);
    assert LittleEndian(b1) == header[1] as int + 0x100 * LittleEndian(b2);
  }

  lemma HeaderRoundTrip(size: nat)
    requires size < 0x1_0000_0000
    ensures DecodeHeader(EncodeHeader(size)) == size
  {
    var q1 := size / 0x100;
    var q2 := q1 / 0x100;
    var q3 := q2 / 0x100;
    assert size / 0x1_0000 == q2;
    assert size / 0x100_0000 == q3;
  }

  lemma HeaderDecodesOnce(header: seq<byte>)
    requires |header| == HEADER_SIZE
    ensures EncodeHeader(DecodeHeader(header)) == header
  {
    var b0, b1, b2, b3 := header[0] as int, header[1] as int, header[2] as int, header[3] as int;
    var q2 := b2 + 0x100 * b3;
    var q1 := b1 + 0x100 * q2;
    assert DecodeHeader(header) == b0 + 0x100 * q1;
    LastDigit(b0, q1);
    LastDigit(b1, q2);
    LastDigit(b2, b3);
    DivideTwice(b0 + 0x100 * q1);
  }

  lemma LastDigit(digit: nat, others: nat)
    requires digit < 0x100
    ensures (digit + 0x100 * others) % 0x100 == digit && (digit + 0x100 * others) / 0x100 == others
  {
  }

  lemma DivideTwice(n: nat)
    ensures n / 0x1_0000 == n / 0x100 / 0x100 && n / 0x100_0000 == n / 0x100 / 0x100 / 0x100
  {
  }

  /** What `write_message` puts on the socket. */
  function Frame(content: seq<byte>): (frame: seq<byte>)
    requires |content| <= MAX_PROTOBUF_SIZE
    ensures |frame| == HEADER_SIZE + |content|
  {
    EncodeHeader(|content|) + content
  }

  function Frames(contents: seq<seq<byte>>): (stream: seq<byte>)
    requires forall c :: c in contents ==> |c| <= MAX_PROTOBUF_SIZE
  {
    if contents == [] then [] else Frame(contents[0]) + Frames(contents[1..])
  }

  type Parser = seq<byte> -> bool

  /** What a reader makes of the bytes that its peer sends before it closes; `rest` is what stays
      unread. */
  datatype ReadResult =
    | Message(content: seq<byte>, rest: seq<byte>)
    | InvalidSize(size: nat, rest: seq<byte>)
    | Undecodable(content: seq<byte>, rest: seq<byte>)
    | ConnectionLost(rest: seq<byte>)

  /** The reference reader: one frame taken from a whole stream. Empty contents stand for the default
      Protobuf message and are never handed to the parser. */
  function ReadFrame(stream: seq<byte>, parses: Parser): (r: ReadResult)
    ensures |r.rest| <= |stream| && r.rest == stream[|stream| - |r.rest|..]
  {
    if |stream| < HEADER_SIZE then
      ConnectionLost([])
    else
      var size := DecodeHeader(stream[..HEADER_SIZE]);
      if size >= MAX_CONTENT_SIZE then
        InvalidSize(size, stream[HEADER_SIZE..])
      else if |stream| < HEADER_SIZE + size then
        ConnectionLost([])
      else
        var content := stream[HEADER_SIZE..HEADER_SIZE + size];
        if size > 0 && !parses(content) then
          Undecodable(content, stream[HEADER_SIZE + size..])
        else
          Message(content, stream[HEADER_SIZE + size..])
  }

  /** `count` frames read one after the other, or None at the first one that is refused. */
  function ReadFrames(stream: seq<byte>, count: nat, parses: Parser): (r: Option<(seq<seq<byte>>, seq<byte>)>)
  {
    if count == 0 then
      Some(([], stream))
    else
      match ReadFrame(stream, parses)
      case Message(content, rest) =>
        (match ReadFrames(rest, count - 1, parses)
         case Some((contents, last)) => Some(([content] + contents, last))
         case None => None)
      case _ => None
  }

  /** Can the parser decode what the writer encoded? Empty contents need no parser. */
  predicate Decodable(content: seq<byte>, parses: Parser) {
    content == [] || parses(content)
  }

  /** The writer checks no size, both readers do: a written content comes back exactly when it is
      below 2^24 bytes, and a larger one is always refused after its header. */
  lemma FrameRoundTrip(content: seq<byte>, rest: seq<byte>, parses: Parser)
    requires |content| <= MAX_PROTOBUF_SIZE
    ensures ReadFrame(Frame(content) + rest, parses) == Message(content, rest) <==>
            |content| < MAX_CONTENT_SIZE && Decodable(content, parses)
    ensures |content| < MAX_CONTENT_SIZE && !Decodable(content, parses) ==>
              ReadFrame(Frame(content) + rest, parses) == Undecodable(content, rest)
    ensures |content| >= MAX_CONTENT_SIZE ==>
              ReadFrame(Frame(content) + rest, parses) == InvalidSize(|content|, content + rest)
  {
    var stream := Frame(content) + rest;
    HeaderRoundTrip(|content|);
    assert stream[..HEADER_SIZE] == EncodeHeader(|content|);
    assert stream[HEADER_SIZE..] == content + rest;
    if |content| < MAX_CONTENT_SIZE {
      assert stream[HEADER_SIZE..HEADER_SIZE + |content|] == content;
      assert stream[HEADER_SIZE + |content|..] == rest;
    }
  }

  lemma ReadFramesStep(content: seq<byte>, tail: seq<byte>, count: nat, parses: Parser)
    requires |content| < MAX_CONTENT_SIZE && Decodable(content, parses)
    ensures ReadFrames(Frame(content) + tail, count + 1, parses) ==
            match ReadFrames(tail, count, parses)
            case Some((contents, last)) => Some(([content] + contents, last))
            case None => None
  {
    FrameRoundTrip(content, tail, parses);
  }

  lemma ConcatIsAssociative(a: seq<byte>, b: seq<byte>, c: seq<byte>)
    ensures (a + b) + c == a + (b + c)
  {
  }

  /** Any sequence of small enough contents, empty ones included, is read back as written, and what
      follows the last frame is left untouched. */
  lemma {:induction false} FramesRoundTrip(contents: seq<seq<byte>>, rest: seq<byte>, parses: Parser)
    requires forall c :: c in contents ==> |c| < MAX_CONTENT_SIZE && Decodable(c, parses)
    ensures ReadFrames(Frames(contents) + rest, |contents|, parses) == Some((contents, rest))
  {
    if contents == [] {
      assert Frames(contents) + rest == rest;
    } else {
      FramesRoundTrip(contents[1..], rest, parses);
      ConcatIsAssociative(Frame(contents[0]), Frames(contents[1..]), rest);
      assert [contents[0]] + contents[1..] == contents;
      ReadFramesStep(contents[0], Frames(contents[1..]) + rest, |contents| - 1, parses);
    }
  }

  /** A decided prefix stays decided: bytes sent after a frame change neither its content nor the
      point where reading stops. */
  lemma ReadFrameExtends(stream: seq<byte>, more: seq<byte>, parses: Parser)
    requires !ReadFrame(stream, parses).ConnectionLost?
    ensures var r := ReadFrame(stream, parses);
            ReadFrame(stream + more, parses) == r.(rest := r.rest + more)
  {
    var all := stream + more;
    assert all[..HEADER_SIZE] == stream[..HEADER_SIZE];
    var size := DecodeHeader(stream[..HEADER_SIZE]);
    if size < MAX_CONTENT_SIZE {
      assert all[HEADER_SIZE..HEADER_SIZE + size] == stream[HEADER_SIZE..HEADER_SIZE + size];
      assert all[HEADER_SIZE + size..] == stream[HEADER_SIZE + size..] + more;
    } else {
      assert all[HEADER_SIZE..] == stream[HEADER_SIZE..] + more;
    }
  }

  /** No frame is complete yet, and none has been refused. */
  predicate Incomplete(bytes: seq<byte>) {
    |bytes| < HEADER_SIZE ||
    (var size := DecodeHeader(bytes[..HEADER_SIZE]);
     size < MAX_CONTENT_SIZE && |bytes| < HEADER_SIZE + size)
  }

  lemma IncompleteIsUndecided(bytes: seq<byte>, parses: Parser)
    ensures Incomplete(bytes) <==> ReadFrame(bytes, parses).ConnectionLost?
  {
  }

  /** An upper bound on the bytes that an incomplete frame still misses. */
  function Missing(bytes: seq<byte>): (n: nat)
    requires Incomplete(bytes)
    ensures 0 < n <= HEADER_SIZE + MAX_CONTENT_SIZE
  {
    if |bytes| < HEADER_SIZE then
      HEADER_SIZE + MAX_CONTENT_SIZE - |bytes|
    else
      HEADER_SIZE + DecodeHeader(bytes[..HEADER_SIZE]) - |bytes|
  }

  /** Outcome of one visit to a socket whose first message is being assembled. */
  datatype Progress =
    | Pending
    | Complete(content: seq<byte>)
    | Rejected(size: nat)
    | Garbled(content: seq<byte>)
    | Lost

  /** The relation that one visit establishes between the bytes assembled so far, the bytes the peer
      still has to send, and their values afterwards. A visit either makes progress towards the frame
      or settles it the way the reference reader does. */
  ghost predicate ReadStep(before: seq<byte>, stream: seq<byte>, step: Progress, after: seq<byte>, rest: seq<byte>,
                           parses: Parser)
  {
    var all := before + stream;
    match step
    case Pending =>
      && |before| < |after| <= |all|
      && after == all[..|after|] && rest == all[|after|..]
      && Incomplete(after)
    case Complete(content) => ReadFrame(all, parses) == Message(content, rest)
    case Rejected(size) => ReadFrame(all, parses) == InvalidSize(size, rest)
    case Garbled(content) => ReadFrame(all, parses) == Undecodable(content, rest)
    case Lost => ReadFrame(all, parses) == ConnectionLost(rest)
  }

  /** Taking `n` of the missing content bytes settles the frame exactly when none is missing. */
  lemma ContentStep(before: seq<byte>, stream: seq<byte>, n: nat, parses: Parser)
    requires HEADER_SIZE <= |before| && Incomplete(before)
    requires 0 < n <= |stream| && n <= Missing(before)
    ensures var after, rest := before + stream[..n], stream[n..];
            var content := after[HEADER_SIZE..];
            ReadStep(before, stream,
                     if n < Missing(before) then Pending else if parses(content) then Complete(content) else Garbled(content),
                     after, rest, parses)
  {
    var all, after := before + stream, before + stream[..n];
    assert after == all[..|after|] && stream[n..] == all[|after|..];
    assert after[..HEADER_SIZE] == before[..HEADER_SIZE] == all[..HEADER_SIZE];
    assert after[HEADER_SIZE..] == all[HEADER_SIZE..|after|];
  }

  /** The end of the stream in the middle of a frame is a lost connection. */
  lemma EndOfStream(before: seq<byte>, stream: seq<byte>, parses: Parser)
    requires Incomplete(before) && stream == []
    ensures ReadStep(before, stream, Lost, before, stream, parses)
  {
    assert before + stream == before;
    IncompleteIsUndecided(before, parses);
  }

  lemma MissingShrinks(before: seq<byte>, after: seq<byte>)
    requires Incomplete(before) && Incomplete(after)
    requires |before| < |after| && before == after[..|before|]
    ensures Missing(after) < Missing(before)
  {
    if |before| >= HEADER_SIZE {
      assert before[..HEADER_SIZE] == after[..HEADER_SIZE];
    }
  }
}
