/** What the first frames of clients make of the server: as a function, along which the event loop is
    proved, and told from what the clients have sent. */
module Settling {
  import opened Wrappers
  import opened Wire
  import opened Commands
  import opened Ledgers

  /** Protobuf decoding of a command. */
  type Decoder = seq<byte> -> Option<Command>

  function ParserOf(decode: Decoder): Parser {
    content => decode(content).Some?
  }

  /** An empty content is the default Protobuf message: no type is set. */
  function CommandOf(content: seq<byte>, decode: Decoder): Command {
    if content != [] && decode(content).Some? then decode(content).value else TypeNotSet
  }

  /** Exceptions that leave the event loop; nothing catches them. */
  datatype Crash =
    | LostConnection
    | InvalidContentSize
    | UndecodableCommand
    | RefusedCommand(error: CommandError)

  /** What the first frame of a client makes of the server. */
  function Settled(l: Ledger, s: SocketId, frame: ReadResult, decode: Decoder): (r: Result<(Ledger, CommandAck), Crash>)
    requires s in l.fds
  {
    match frame
    case ConnectionLost(_) => Err(LostConnection)
    case InvalidSize(_, _) => Err(InvalidContentSize)
    case Undecodable(_, _) => Err(UndecodableCommand)
    case Message(content, _) =>
      var c := CommandOf(content, decode);
      match HandleCommand(l.control, c, s)
      case Refused(error) => Err(RefusedCommand(error))
      case Handled(next, ack, drop) => Ok((Settle(l, s, c, next, drop), ack))
  }

  /** What a traversal makes of the server: the first frames of the sockets in `order` are settled one
      after the other. How their bytes arrive does not appear. */
  function SettleAll(l: Ledger, order: seq<SocketId>, inputs: map<SocketId, seq<byte>>, decode: Decoder)
    : (r: Result<(Ledger, seq<(SocketId, CommandAck)>), Crash>)
    requires forall s <- order :: s in inputs && s in l.fds
    ensures r.Ok? ==> r.value.0.fds == l.fds
    decreases |order|
  {
    if order == [] then Ok((l, [])) else
      var n := |order| - 1;
      match SettleAll(l, order[..n], inputs, decode)
      case Err(crash) => Err(crash)
      case Ok((l1, acks)) =>
        match Settled(l1, order[n], ReadFrame(inputs[order[n]], ParserOf(decode)), decode)
        case Err(crash) => Err(crash)
        case Ok((l2, ack)) => Ok((l2, acks + [(order[n], ack)]))
  }

  /** A settled socket leaves the barely connected ones; nothing else moves. */
  lemma SettledFrame(l: Ledger, s: SocketId, frame: ReadResult, decode: Decoder)
    requires s in l.fds && Settled(l, s, frame, decode).Ok?
    ensures var l1 := Settled(l, s, frame, decode).value.0;
            && l1.barely == l.barely - {s} && l1.fds == l.fds && l1.place.Keys == l.place.Keys + {s}
            && (l1.dropped == l.dropped || l1.dropped == l.dropped + [s]) && l1.queue == l.queue
  {
  }

  /** The bytes assembled before the last ones do not matter. */
  lemma SettledForgetsBytes(l: Ledger, s: SocketId, bytes: seq<byte>, frame: ReadResult, decode: Decoder)
    requires s in l.fds
    ensures Settled(Assemble(l, s, bytes), s, frame, decode) == Settled(l, s, frame, decode)
  {
    assert Assemble(l, s, bytes).barely - {s} == l.barely - {s};
  }

  lemma AssembleTwice(l: Ledger, s: SocketId, bytes: seq<byte>, more: seq<byte>)
    ensures Assemble(Assemble(l, s, bytes), s, more) == Assemble(l, s, more)
    ensures Assemble(l, s, more).place == l.place && Assemble(l, s, more).fds == l.fds
  {
  }

  lemma SettleOneMore(l: Ledger, order: seq<SocketId>, s: SocketId, inputs: map<SocketId, seq<byte>>, decode: Decoder)
    requires forall t <- order + [s] :: t in inputs && t in l.fds
    requires s in inputs && s in l.fds && forall t <- order :: t in inputs && t in l.fds
    ensures SettleAll(l, order + [s], inputs, decode) ==
            match SettleAll(l, order, inputs, decode)
            case Err(crash) => Err(crash)
            case Ok((l1, acks)) =>
              match Settled(l1, s, ReadFrame(inputs[s], ParserOf(decode)), decode)
              case Err(crash) => Err(crash)
              case Ok((l2, ack)) => Ok((l2, acks + [(s, ack)]))
  {
    assert (order + [s])[..|order|] == order;
  }

  /** A traversal keeps the ledger. */
  lemma {:induction false} SettleAllKeepsOk(l: Ledger, order: seq<SocketId>, inputs: map<SocketId, seq<byte>>,
                                            decode: Decoder, signalFd: int, listenerFd: int)
    requires LedgerOk(l, signalFd, listenerFd) && !l.control.state.SimulationFinished?
    requires Distinct(order) && forall s <- order :: s in inputs && s in l.fds && s in l.barely
    requires SettleAll(l, order, inputs, decode).Ok?
    ensures LedgerOk(SettleAll(l, order, inputs, decode).value.0, signalFd, listenerFd)
    ensures !SettleAll(l, order, inputs, decode).value.0.control.state.SimulationFinished?
    decreases |order|
  {
    if order != [] {
      var n := |order| - 1;
      SettleAllKeepsOk(l, order[..n], inputs, decode, signalFd, listenerFd);
      SettleAllBarely(l, order[..n], inputs, decode);
      SettledKeepsOk(SettleAll(l, order[..n], inputs, decode).value.0, order[n],
                     ReadFrame(inputs[order[n]], ParserOf(decode)), decode, signalFd, listenerFd);
    }
  }

  lemma {:induction false} SettleAllBarely(l: Ledger, order: seq<SocketId>, inputs: map<SocketId, seq<byte>>,
                                           decode: Decoder)
    requires forall s <- order :: s in inputs && s in l.fds
    requires SettleAll(l, order, inputs, decode).Ok?
    ensures forall s :: s in SettleAll(l, order, inputs, decode).value.0.barely <==> s in l.barely && s !in order
    decreases |order|
  {
    if order != [] {
      var n := |order| - 1;
      SettleAllBarely(l, order[..n], inputs, decode);
      var before := SettleAll(l, order[..n], inputs, decode).value.0;
      var frame := ReadFrame(inputs[order[n]], ParserOf(decode));
      SettledFrame(before, order[n], frame, decode);
      hide Settled, ReadFrame;
      assert SettleAll(l, order, inputs, decode).value.0 == Settled(before, order[n], frame, decode).value.0;
      assert forall s :: s in order <==> s in order[..n] || s == order[n];
    }
  }

  lemma SettledKeepsOk(l: Ledger, s: SocketId, frame: ReadResult, decode: Decoder, signalFd: int, listenerFd: int)
    requires LedgerOk(l, signalFd, listenerFd) && !l.control.state.SimulationFinished? && s in l.barely && s in l.fds
    requires Settled(l, s, frame, decode).Ok?
    ensures var l1 := Settled(l, s, frame, decode).value.0;
            && LedgerOk(l1, signalFd, listenerFd) && !l1.control.state.SimulationFinished?
            && l1.barely == l.barely - {s}
  {
    var c := CommandOf(frame.content, decode);
    SettleKeepsOk(l, s, c, signalFd, listenerFd);
    CommandEffect(l.control, c, s);
  }

  // ----- told from what the clients have sent

  /** The first content that a client has sent is parsed and obeyed, by the rules of the command machine,
      or ends the server: when it is no command, and when the command is refused. */
  ghost predicate AnswersFirst(l: Ledger, s: SocketId, input: seq<byte>, decode: Decoder,
                               outcome: Result<(Ledger, CommandAck), Crash>)
  {
    && s in l.fds
    && (forall content, rest | |content| < MAX_CONTENT_SIZE && input == Frame(content) + rest ::
          if content == [] then outcome == Err(RefusedCommand(UnsetCommand))
          else match decode(content)
               case None => outcome == Err(UndecodableCommand)
               case Some(c) =>
                 match HandleCommand(l.control, c, s)
                 case Refused(error) => outcome == Err(RefusedCommand(error))
                 case Handled(next, ack, drop) => outcome == Ok((Settle(l, s, c, next, drop), ack)))
    && (Incomplete(input) ==> outcome == Err(LostConnection))
    && (Oversized(input) ==> outcome == Err(InvalidContentSize))
  }

  predicate Oversized(input: seq<byte>) {
    |input| >= HEADER_SIZE && DecodeHeader(input[..HEADER_SIZE]) >= MAX_CONTENT_SIZE
  }

  lemma SettledAnswers(l: Ledger, s: SocketId, input: seq<byte>, decode: Decoder)
    requires s in l.fds
    ensures AnswersFirst(l, s, input, decode, Settled(l, s, ReadFrame(input, ParserOf(decode)), decode))
  {
    forall content, rest | |content| < MAX_CONTENT_SIZE && input == Frame(content) + rest
      ensures ReadFrame(input, ParserOf(decode)) == if content == [] || decode(content).Some? then Message(content, rest)
                                                    else Undecodable(content, rest)
    {
      FrameRoundTrip(content, rest, ParserOf(decode));
    }
    IncompleteIsUndecided(input, ParserOf(decode));
    hide HandleCommand, Settle, Frame;
    if Oversized(input) {
      assert ReadFrame(input, ParserOf(decode)).InvalidSize?;
    }
  }

  /** The clients of `order` are answered one after the other, each from the state that the one before has
      left. */
  ghost predicate AnsweredInOrder(l: Ledger, order: seq<SocketId>, inputs: map<SocketId, seq<byte>>, decode: Decoder,
                                  states: seq<Ledger>, replies: seq<(SocketId, CommandAck)>)
  {
    && |states| == |order| + 1 && |replies| == |order| && states[0] == l
    && forall k | 0 <= k < |order| ::
         && order[k] in inputs && replies[k].0 == order[k]
         && AnswersFirst(states[k], order[k], inputs[order[k]], decode, Ok((states[k + 1], replies[k].1)))
  }

  /** The client of `order[n]` is the first whose message ends the server. */
  ghost predicate CrashesAt(l: Ledger, order: seq<SocketId>, n: nat, inputs: map<SocketId, seq<byte>>, decode: Decoder,
                            states: seq<Ledger>, replies: seq<(SocketId, CommandAck)>, crash: Crash)
  {
    && n < |order| && AnsweredInOrder(l, order[..n], inputs, decode, states, replies)
    && order[n] in inputs && AnswersFirst(states[n], order[n], inputs[order[n]], decode, Err(crash))
  }

  /** All are answered, or some message ends the server. */
  ghost predicate AnsweredAll(l: Ledger, order: seq<SocketId>, inputs: map<SocketId, seq<byte>>, decode: Decoder,
                              outcome: Result<(Ledger, seq<(SocketId, CommandAck)>), Crash>)
  {
    match outcome
    case Ok((last, replies)) =>
      exists states :: AnsweredInOrder(l, order, inputs, decode, states, replies) && last == states[|order|]
    case Err(crash) =>
      exists n: nat, states, replies :: CrashesAt(l, order, n, inputs, decode, states, replies, crash)
  }

  lemma OneMoreAnswer(l: Ledger, order: seq<SocketId>, s: SocketId, inputs: map<SocketId, seq<byte>>, decode: Decoder,
                      states: seq<Ledger>, replies: seq<(SocketId, CommandAck)>, last: Ledger, ack: CommandAck)
    requires AnsweredInOrder(l, order, inputs, decode, states, replies) && s in inputs
    requires AnswersFirst(states[|order|], s, inputs[s], decode, Ok((last, ack)))
    ensures AnsweredInOrder(l, order + [s], inputs, decode, states + [last], replies + [(s, ack)])
  {
    hide AnswersFirst;
  }

  lemma {:induction false} SettleAllAnswers(l: Ledger, order: seq<SocketId>, inputs: map<SocketId, seq<byte>>,
                                            decode: Decoder)
    requires forall s <- order :: s in inputs && s in l.fds
    ensures AnsweredAll(l, order, inputs, decode, SettleAll(l, order, inputs, decode))
    decreases |order|
  {
    if order == [] {
      assert AnsweredInOrder(l, order, inputs, decode, [l], []);
    } else {
      var first, s := order[..|order| - 1], order[|order| - 1];
      assert first + [s] == order;
      SettleOneMore(l, first, s, inputs, decode);
      SettleAllAnswers(l, first, inputs, decode);
      hide AnswersFirst, Settled, ReadFrame, SettleAll;
      match SettleAll(l, first, inputs, decode) {
        case Ok((l1, replies)) =>
          SettledAnswers(l1, s, inputs[s], decode);
          LastAnswer(l, first, s, inputs, decode, l1, replies, Settled(l1, s, ReadFrame(inputs[s], ParserOf(decode)), decode));
        case Err(crash) => EarlierCrash(l, first, s, inputs, decode, crash);
      }
    }
  }

  lemma LastAnswer(l: Ledger, first: seq<SocketId>, s: SocketId, inputs: map<SocketId, seq<byte>>, decode: Decoder,
                   l1: Ledger, replies: seq<(SocketId, CommandAck)>, outcome: Result<(Ledger, CommandAck), Crash>)
    requires s in inputs && AnsweredAll(l, first, inputs, decode, Ok((l1, replies)))
    requires AnswersFirst(l1, s, inputs[s], decode, outcome)
    ensures outcome.Ok? ==>
              AnsweredAll(l, first + [s], inputs, decode, Ok((outcome.value.0, replies + [(s, outcome.value.1)])))
    ensures outcome.Err? ==> AnsweredAll(l, first + [s], inputs, decode, Err(outcome.error))
  {
    hide AnswersFirst;
    var states :| AnsweredInOrder(l, first, inputs, decode, states, replies) && l1 == states[|first|];
    if outcome.Ok? {
      OneMoreAnswer(l, first, s, inputs, decode, states, replies, outcome.value.0, outcome.value.1);
    } else {
      assert (first + [s])[..|first|] == first;
      assert CrashesAt(l, first + [s], |first|, inputs, decode, states, replies, outcome.error);
    }
  }

  lemma EarlierCrash(l: Ledger, first: seq<SocketId>, s: SocketId, inputs: map<SocketId, seq<byte>>, decode: Decoder,
                     crash: Crash)
    requires AnsweredAll(l, first, inputs, decode, Err(crash))
    ensures AnsweredAll(l, first + [s], inputs, decode, Err(crash))
  {
    hide AnswersFirst;
    var n: nat, states, replies :| CrashesAt(l, first, n, inputs, decode, states, replies, crash);
    assert (first + [s])[..n] == first[..n];
    assert CrashesAt(l, first + [s], n, inputs, decode, states, replies, crash);
  }

  /** A traversal adds to the dropped sockets, in some order, some of those that it has settled. */
  lemma {:induction false} SettleAllDropped(l: Ledger, order: seq<SocketId>, inputs: map<SocketId, seq<byte>>,
                                            decode: Decoder)
    requires forall s <- order :: s in inputs && s in l.fds
    requires SettleAll(l, order, inputs, decode).Ok?
    ensures var next := SettleAll(l, order, inputs, decode).value.0;
            && l.dropped <= next.dropped && next.queue == l.queue
            && forall s <- next.dropped :: s in l.dropped || s in order
    decreases |order|
  {
    if order == [] {
      assert SettleAll(l, order, inputs, decode) == Ok((l, []));
    } else {
      var first, s := order[..|order| - 1], order[|order| - 1];
      assert first + [s] == order;
      hide ReadFrame, HandleCommand, Settle, SettleAll, Settled;
      SettleOneMore(l, first, s, inputs, decode);
      SettleAllDropped(l, first, inputs, decode);
      var before := SettleAll(l, first, inputs, decode).value.0;
      var frame := ReadFrame(inputs[s], ParserOf(decode));
      SettledFrame(before, s, frame, decode);
      assert SettleAll(l, order, inputs, decode).value.0 == Settled(before, s, frame, decode).value.0;
    }
  }

  /** After the traversals of a turn: the clients of `order` were answered, and the sweep of the dropped sockets
      has changed neither the table nor the sockets that are barely connected. */
  ghost predicate ServedAsSent(l: Ledger, order: seq<SocketId>, inputs: map<SocketId, seq<byte>>, decode: Decoder,
                               l': Ledger, replies: seq<(SocketId, CommandAck)>)
  {
    exists settled ::
      && AnsweredAll(l, order, inputs, decode, Ok((settled, replies)))
      && settled.control == l'.control && settled.barely == l'.barely && settled.queue == l'.queue
  }

  lemma NobodyServed(l: Ledger, inputs: map<SocketId, seq<byte>>, decode: Decoder)
    ensures ServedAsSent(l, [], inputs, decode, l, [])
  {
    assert AnsweredInOrder(l, [], inputs, decode, [l], []);
    assert AnsweredAll(l, [], inputs, decode, Ok((l, [])));
  }
}
