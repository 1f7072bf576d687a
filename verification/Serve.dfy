/** The command thread: its event loop over the selector, the sockets it owns and the messages of the
    SimGrid thread. Each method is proved against the ledger, the value-level account of module
    Ledgers, and keeps its invariant. */
module Serve {
  import opened Wrappers
  import opened Wire
  import opened Commands
  import opened Selectors
  import opened Ledgers
  import opened Settling
  import opened Sweeping

  datatype Visit = StillPending | NowDropped | NowConnected

  /** One visit to a barely connected socket, as nondeterministic as the network allows. The reader of
      module BarelyConnected has this contract too, on its buffers. */
  method ReadOnce(before: seq<byte>, stream: seq<byte>, parses: Parser)
    returns (step: Progress, after: seq<byte>, rest: seq<byte>)
    requires Incomplete(before)
    ensures ReadStep(before, stream, step, after, rest, parses)
  {
    var settle: bool := *;
    if !settle && stream != [] && Incomplete(before + stream[..1]) {
      var k :| 1 <= k <= |stream| && Incomplete(before + stream[..k]);
      after := before + stream[..k];
      assert after == (before + stream)[..|after|] && stream[k..] == (before + stream)[|after|..];
      return Pending, after, stream[k..];
    }
    var r := ReadFrame(before + stream, parses);
    after, rest := before, r.rest;
    match r
    case Message(content, _) => step := Complete(content);
    case InvalidSize(size, _) => step := Rejected(size);
    case Undecodable(content, _) => step := Garbled(content);
    case ConnectionLost(_) => step := Lost;
  }

  /** What the ready descriptors make of the server, a signal apart. */
  ghost predicate IsReadyTurn(l: Ledger, accepting: bool, s: SocketId, fd: int, order: seq<SocketId>, closed: set<SocketId>,
                              inputs: map<SocketId, seq<byte>>, decode: Decoder, served: Result<Ledger, Crash>)
  {
    if accepting then served == Ok(Accept(l, s, fd))
    else
      && Distinct(order) && (forall t <- order :: t in inputs && t in l.fds)
      && match SettleAll(l, order, inputs, decode)
         case Err(crash) => served == Err(crash)
         case Ok((settled, _)) => served == Ok(Sweep(settled, closed)) && forall t <- closed :: t in settled.dropped
  }

  /** Where a traversal started. */
  datatype Traversal = Traversal(start: Ledger, inputs: map<SocketId, seq<byte>>, replies: seq<(SocketId, CommandAck)>,
                                       decode: Decoder)

  lemma OpenIsKnown(l: Ledger)
    requires Partition(l)
    ensures forall s <- l.fds :: s in l.place
  {
  }

  /** A socket that was handed back is neither barely connected nor dropped yet. */
  lemma QuitIsElsewhere(l: Ledger)
    requires Partition(l) && l.queue != [] && l.queue[0].ActorQuit?
    ensures l.queue[0].socket !in l.barely && l.queue[0].socket !in l.dropped
  {
    assert At(l, l.queue[0].socket, Returning);
  }

  /** The selector watches the dropped sockets that are still there, and not the others. */
  lemma DescriptorsFollow(l: Ledger, l': Ledger, t: SocketId, signalFd: int, listenerFd: int)
    requires Partition(l) && Descriptors(l, signalFd, listenerFd) && Descriptors(l', signalFd, listenerFd)
    requires t in l.dropped && (t in l'.fds <==> t in l'.dropped) && (t in l'.fds ==> l'.fds[t] == l.fds[t])
    requires t in l'.fds || forall u <- l'.fds :: u in l.fds && l'.fds[u] == l.fds[u]
    ensures t in l.fds && (l.fds[t] in l'.registered <==> t in l'.dropped)
  {
    assert At(l, t, Dropped);
    if t in l'.dropped {
      assert l'.fds[t] in Watched(l');
    }
  }

  /** The dropped sockets of `l` after a turn that ends in `l'`: those in `gone` leave, unless the listener was
      served or a client was dropped. */
  ghost predicate Follow(l: Ledger, gone: set<SocketId>, listened: bool, l': Ledger) {
    var clientDropped := exists s <- l.barely :: s in l'.dropped;
    && (forall t <- l.dropped ::
          && t in l.fds && (t in l'.dropped <==> listened || clientDropped || t !in gone)
          && (t in l'.fds <==> t in l'.dropped) && (t in l'.fds ==> l'.fds[t] == l.fds[t]))
    && (listened || forall u <- l'.fds :: u in l.fds && l'.fds[u] == l.fds[u])
    && l'.queue == l.queue
  }

  /** The same, with the selector. */
  ghost predicate Followed(l: Ledger, gone: set<SocketId>, listened: bool, l': Ledger) {
    var clientDropped := exists s <- l.barely :: s in l'.dropped;
    forall t <- l.dropped ::
      && t in l.fds && (t in l'.dropped <==> listened || clientDropped || t !in gone)
      && (t in l'.fds <==> t in l'.dropped) && (l.fds[t] in l'.registered <==> t in l'.dropped)
  }

  lemma SettleAllLeaves(l: Ledger, order: seq<SocketId>, inputs: map<SocketId, seq<byte>>, decode: Decoder)
    requires forall s <- order :: s in inputs && s in l.fds
    ensures SettleAll(l, order, inputs, decode).Ok? ==>
              forall s :: s in SettleAll(l, order, inputs, decode).value.0.barely <==> s in l.barely && s !in order
  {
    if SettleAll(l, order, inputs, decode).Ok? {
      SettleAllBarely(l, order, inputs, decode);
    }
  }

  lemma SweptAsSent(l: Ledger, order: seq<SocketId>, inputs: map<SocketId, seq<byte>>, decode: Decoder, settled: Ledger,
                    closed: set<SocketId>, replies: seq<(SocketId, CommandAck)>)
    requires AnsweredAll(l, order, inputs, decode, Ok((settled, replies)))
    ensures ServedAsSent(l, order, inputs, decode, Sweep(settled, closed), replies)
    ensures Sweep(settled, closed).barely == settled.barely
  {
  }

  lemma DroppedAreOpen(l: Ledger)
    requires Partition(l)
    ensures forall t <- l.dropped :: t in l.fds
  {
    OwnSocketsAreOpen(l);
  }

  lemma AcceptFollows(l: Ledger, gone: set<SocketId>, s: SocketId, fd: int)
    requires forall t <- l.dropped :: t in l.fds
    ensures s !in l.fds ==> Follow(l, gone, true, Accept(l, s, fd))
  {
  }

  lemma UnservedFollow(l: Ledger, gone: set<SocketId>, listened: bool)
    requires Partition(l)
    ensures gone == {} ==> Follow(l, gone, listened, l)
  {
    BarelyAreNotDropped(l);
    OwnSocketsAreOpen(l);
  }

  lemma MessageFollows(l: Ledger, gone: set<SocketId>, listened: bool, l1: Ledger, l2: Ledger,
                       signalFd: int, listenerFd: int)
    requires LedgerOk(l, signalFd, listenerFd) && LedgerOk(l2, signalFd, listenerFd) && Follow(l, gone, listened, l1)
    requires l2.fds == l1.fds
    requires forall t :: t in l2.dropped <==> t in l1.dropped || (l1.queue != [] && l1.queue[0] == ActorQuit(t))
    ensures Followed(l, gone, listened, l2)
  {
    hide Descriptors, ControlInv, Messages, Links, Victims;
    MessageDrops(l, l1, l2);
    hide Partition;
    forall t <- l.dropped
      ensures t in l.fds && (l.fds[t] in l2.registered <==> t in l2.dropped)
    {
      DescriptorsFollow(l, l2, t, signalFd, listenerFd);
    }
  }

  lemma MessageDrops(l: Ledger, l1: Ledger, l2: Ledger)
    requires Partition(l) && l1.queue == l.queue
    requires forall t :: t in l2.dropped <==> t in l1.dropped || (l1.queue != [] && l1.queue[0] == ActorQuit(t))
    ensures forall s :: s in l.barely || s in l.dropped ==> (s in l2.dropped <==> s in l1.dropped)
  {
    if l.queue != [] && l.queue[0].ActorQuit? {
      QuitIsElsewhere(l);
    }
  }

  lemma ReceivedDropped(l: Ledger)
    requires l.queue != [] && (l.queue[0].ActorQuit? ==> l.queue[0].socket in l.fds)
    ensures Receive(l).dropped == if l.queue[0].ActorQuit? then l.dropped + [l.queue[0].socket] else l.dropped
  {
  }

  lemma BarelyAreNotDropped(l: Ledger)
    requires Partition(l)
    ensures forall t <- l.dropped :: t !in l.barely
  {
    OwnSocketsAreOpen(l);
  }

  lemma LongerHasMore(a: seq<SocketId>, b: seq<SocketId>)
    requires a <= b && Distinct(b)
    ensures a != b <==> exists s <- b :: s !in a
  {
    if a != b {
      assert b[|a|] in b;
      assert b[|a|] !in a;
    } else {
    }
  }

  /** The message at the head of the queue, if there is one, is handled. */
  function NextMessage(l: Ledger): Ledger {
    if l.queue != [] && (l.queue[0].ActorQuit? ==> l.queue[0].socket in l.fds) then Receive(l) else l
  }

  class Server {
    const signalFd: int
    const listenerFd: int
    const selector: Selector

    var state: ServerState
    var connections: Table
    var nbConnected: nat
    var starts: seq<Table>
    var pushed: seq<(QueueId, SocketId)>
    var returnCode: int

    var barely: map<SocketId, seq<byte>>
    var dropped: seq<SocketId>

    var toCommand: seq<InterthreadMessage>
    var createAcks: seq<QueueId>

    // the system: names and descriptors of sockets, bytes the clients have still to send, replies
    var nextSocket: SocketId
    var fds: map<SocketId, int>
    var streams: map<SocketId, seq<byte>>
    var replies: seq<(SocketId, CommandAck)>

    /** The state above as a value, with its history. */
    ghost var ledger: Ledger

    function GetControl(): Control
      reads this
    {
      Control(state, connections, nbConnected, starts, pushed)
    }

    ghost predicate SocketsAgree()
      reads this, selector
    {
      && selector.Valid()
      && ledger.returnCode == returnCode
      && ledger.barely == barely
      && ledger.dropped == dropped
      && ledger.queue == toCommand
      && ledger.fds == fds
      && ledger.registered == selector.registered
      && (forall s <- ledger.place :: s < nextSocket)
    }

    /** The ledger is the state. */
    ghost predicate Agrees()
      reads this, selector
    {
      SocketsAgree() && ledger.control == GetControl()
    }

    ghost predicate Valid()
      reads this, selector
    {
      Agrees() && LedgerOk(ledger, signalFd, listenerFd)
    }

    function Stream(s: SocketId): seq<byte>
      reads this
    {
      if s in streams then streams[s] else []
    }

    /** The dropped sockets whose client has closed, as far as the selector tells. */
    ghost function Closing(): set<SocketId>
      reads this, selector
    {
      set t | t in dropped && Readable(t) && Stream(t) == []
    }

    /** The newest acknowledgement. */
    ghost function LastReply(): (SocketId, CommandAck)
      reads this`replies
    {
      if replies == [] then (0, CommandAck(false, NoInfo)) else replies[|replies| - 1]
    }

    predicate Readable(s: SocketId)
      reads this`fds, selector`readable
    {
      s in fds && selector.IsReadable(fds[s])
    }

    constructor (signalFd: int, listenerFd: int)
      requires signalFd != listenerFd
      ensures Valid() && fresh(selector) && ledger == InitialLedger(signalFd, listenerFd)
    {
      this.signalFd := signalFd;
      this.listenerFd := listenerFd;
      state, connections, nbConnected, starts, pushed := AcceptingNewActors, map[], 0, [], [];
      returnCode := 0;
      barely, dropped := map[], [];
      toCommand, createAcks := [], [];
      nextSocket, fds, streams, replies := 0, map[], map[], [];
      ledger := InitialLedger(signalFd, listenerFd);
      selector := new Selector();
      new;
      InitialLedgerOk(signalFd, listenerFd);
      hide InitialLedger, LedgerOk;
      RegisterOwnDescriptors();
    }

    method RegisterOwnDescriptors()
      requires selector.Valid() && selector.registered == {}
      modifies selector`registered, selector`maxFd
      ensures selector.Valid() && selector.registered == {signalFd, listenerFd}
    {
      selector.Add(signalFd);
      selector.Add(listenerFd);
    }

    // ----- commands

    method LaunchSimulation()
      modifies this`state, this`starts
      ensures state == SimulationRunning && starts == old(starts) + [connections]
    {
      state := SimulationRunning;
      starts := starts + [connections];
    }

    /** `handle_command`, up to the reply. */
    method HandleCommandFor(command: Command, issuer: SocketId) returns (r: Result<(CommandAck, bool), CommandError>)
      modifies this`state, this`connections, this`nbConnected, this`starts, this`pushed
      ensures match HandleCommand(old(GetControl()), command, issuer)
              case Refused(error) => r == Err(error)
              case Handled(next, ack, drop) => r == Ok((ack, drop)) && GetControl() == next
    {
      var success, info, dropClient := false, NoInfo, true;
      match command {
        case AddActor(actorName, hostName) =>
          if state != AcceptingNewActors && state != Killed {
            return Err(WrongState);
          }
          if state != Killed {
            var id := |connections| + 2;
            connections := Insert(connections, ActorConnection(actorName, hostName, id, None, None));
            success, info := true, NewActor(id);
          }
        case Start =>
          if state != AcceptingNewActors {
            return Err(WrongState);
          }
          if nbConnected == |connections| {
            LaunchSimulation();
          } else {
            state := WaitingForAllActorsConnection;
          }
          success := true;
        case Kill(_) =>
          state := Killed;
          success := true;
        case Status =>
          success, info := true, NbConnected(nbConnected);
        case Connect(id) =>
          if state == SimulationFinished {
            return Err(WrongState);
          }
          if state != Killed {
            if id !in connections {
              return Err(UnknownActor(id));
            }
            if connections[id].socket.Some? {
              return Err(AlreadyConnected(id));
            }
            connections := connections[id := connections[id].(socket := Some(issuer))];
            nbConnected := nbConnected + 1;
            if state == SimulationRunning {
              if connections[id].connectAck.None? {
                return Err(NoConnectAck(id));
              }
              pushed := pushed + [(connections[id].connectAck.value, issuer)];
            } else if state == WaitingForAllActorsConnection && nbConnected == |connections| {
              LaunchSimulation();
            }
            dropClient := false;
            success := true;
          }
        case TypeNotSet =>
          return Err(UnsetCommand);
      }
      r := Ok((CommandAck(success, info), dropClient));
    }

    // ----- sockets

    /** `fd` is what the kernel gives: no open descriptor; `stream` is all that the client will send
        before it closes. */
    method AcceptClient(fd: int, stream: seq<byte>) returns (s: SocketId)
      requires Valid()
      requires fd != signalFd && fd != listenerFd && forall t <- fds :: fds[t] != fd
      modifies this`nextSocket, this`barely, this`fds, this`streams, this`ledger, selector`registered, selector`maxFd
      ensures Valid()
      ensures s == old(nextSocket) && s !in old(ledger.place) && ledger == Accept(old(ledger), s, fd)
      ensures streams == old(streams)[s := stream]
      ensures s !in old(fds) && fds == old(fds)[s := fd] && barely == old(barely)[s := []]
    {
      s := nextSocket;
      OpenIsKnown(ledger);
      AcceptKeepsOk(ledger, s, fd, signalFd, listenerFd);
      hide LedgerOk;
      InsertBarely(s, fd, stream);
    }

    method InsertBarely(s: SocketId, fd: int, stream: seq<byte>)
      requires Agrees() && s == nextSocket
      modifies this`nextSocket, this`barely, this`fds, this`streams, this`ledger, selector`registered, selector`maxFd
      ensures Agrees()
      ensures ledger == Accept(old(ledger), s, fd) && streams == old(streams)[s := stream]
      ensures fds == old(fds)[s := fd] && barely == old(barely)[s := []]
    {
      nextSocket := s + 1;
      barely := barely[s := []];
      selector.Add(fd);
      fds, streams := fds[s := fd], streams[s := stream];
      ledger := Accept(ledger, s, fd);
    }

    method StoreBytes(s: SocketId, bytes: seq<byte>)
      requires Agrees()
      modifies this`barely, this`ledger
      ensures Agrees() && ledger == Assemble(old(ledger), s, bytes)
    {
      barely := barely[s := bytes];
      ledger := Assemble(ledger, s, bytes);
    }

    /** The server waits for the client of `s` to close. */
    method DropClient(s: SocketId, command: Command)
      requires SocketsAgree() && s in fds && s in ledger.place
      modifies this`barely, this`dropped, this`ledger
      ensures Agrees() && ledger == Settle(old(ledger), s, command, GetControl(), true)
    {
      barely := barely - {s};
      dropped := dropped + [s];
      ledger := Settle(ledger, s, command, GetControl(), true);
    }

    /** The SimGrid side reads `s` from now on. */
    method HandOver(s: SocketId, command: Command)
      requires SocketsAgree() && s in fds && s in ledger.place
      modifies this`barely, this`ledger, selector`registered
      ensures Agrees() && ledger == Settle(old(ledger), s, command, GetControl(), false)
    {
      barely := barely - {s};
      selector.Remove(fds[s]);
      ledger := Settle(ledger, s, command, GetControl(), false);
    }

    /** `handle_command`, and what becomes of the socket it came from. */
    method ObeyCommand(s: SocketId, command: Command) returns (r: Result<bool, Crash>)
      requires Agrees() && s in fds && s in ledger.place
      modifies this`state, this`connections, this`nbConnected, this`starts, this`pushed, this`replies
      modifies this`barely, this`dropped, this`ledger, selector`registered
      ensures match HandleCommand(old(GetControl()), command, s)
              case Refused(error) => r == Err(RefusedCommand(error))
              case Handled(next, ack, drop) =>
                && r == Ok(drop)
                && Agrees() && ledger == Settle(old(ledger), s, command, next, drop)
                && replies == old(replies) + [(s, ack)]
                && dropped == if drop then old(dropped) + [s] else old(dropped)
    {
      var handled := HandleCommandFor(command, s);
      if handled.Err? {
        return Err(RefusedCommand(handled.error));
      }
      replies := replies + [(s, handled.value.0)];
      if handled.value.1 {
        DropClient(s, command);
      } else {
        HandOver(s, command);
      }
      r := Ok(handled.value.1);
    }

    /** One turn of the traversal on a readable socket: more bytes of its first message, or the
        command that it carries. */
    method VisitSocket(s: SocketId, decode: Decoder) returns (r: Result<Visit, Crash>)
      requires Agrees() && s in barely && Incomplete(barely[s]) && s in fds && s in ledger.place
      modifies this`state, this`connections, this`nbConnected, this`starts, this`pushed, this`replies, this`streams
      modifies this`barely, this`dropped, this`ledger, selector`registered
      ensures var frame := ReadFrame(old(barely[s] + Stream(s)), ParserOf(decode));
              var settled := Settled(old(ledger), s, frame, decode);
              match r
              case Ok(StillPending) =>
                && Agrees() && s in barely && Incomplete(barely[s]) && Missing(barely[s]) < old(Missing(barely[s]))
                && barely[s] + Stream(s) == old(barely[s] + Stream(s))
                && ledger == Assemble(old(ledger), s, barely[s]) && replies == old(replies)
              case Ok(v) =>
                && Agrees() && settled.Ok? && ledger == settled.value.0
                && replies == old(replies) + [(s, settled.value.1)]
                && Stream(s) == frame.rest
                && dropped == if v.NowDropped? then old(dropped) + [s] else old(dropped)
              case Err(crash) => settled == Err(crash)
      ensures r != Ok(StillPending) ==>
                AnswersFirst(old(ledger), s, old(barely[s] + Stream(s)), decode,
                             match r case Ok(_) => Ok((ledger, LastReply().1)) case Err(crash) => Err(crash))
      ensures forall t :: t != s ==> Stream(t) == old(Stream(t))
    {
      hide HandleCommand, Settle, ReadFrame, AnswersFirst, LedgerOk, ParserOf;
      SettledAnswers(ledger, s, barely[s] + Stream(s), decode);
      var step, after, rest := ReadOnce(barely[s], Stream(s), ParserOf(decode));
      ghost var assembled := barely[s];
      streams := streams[s := rest];
      match step {
        case Pending =>
          MissingShrinks(assembled, after);
          StoreBytes(s, after);
          r := Ok(StillPending);
        case Lost => r := Err(LostConnection);
        case Rejected(_) => r := Err(InvalidContentSize);
        case Garbled(_) => r := Err(UndecodableCommand);
        case Complete(content) =>
          var obeyed := ObeyCommand(s, CommandOf(content, decode));
          match obeyed {
            case Err(crash) => r := Err(crash);
            case Ok(drop) => r := Ok(if drop then NowDropped else NowConnected);
          }
      }
    }

    /** What the clients have sent or will send, including the bytes already assembled. */
    function Inputs(): map<SocketId, seq<byte>>
      reads this
    {
      map s | s in barely :: barely[s] + Stream(s)
    }

    /** The iteration stays on a socket until its message is complete, however the network cuts it. */
    method VisitUntilSettled(s: SocketId, decode: Decoder) returns (r: Result<bool, Crash>)
      requires Agrees() && s in barely && Incomplete(barely[s]) && s in fds && s in ledger.place
      modifies this`state, this`connections, this`nbConnected, this`starts, this`pushed, this`replies, this`streams
      modifies this`barely, this`dropped, this`ledger, selector`registered
      ensures var settled := Settled(old(ledger), s, ReadFrame(old(barely[s] + Stream(s)), ParserOf(decode)), decode);
              match r
              case Err(crash) => settled == Err(crash)
              case Ok(drop) =>
                && Agrees() && settled.Ok? && ledger == settled.value.0
                && replies == old(replies) + [(s, settled.value.1)]
                && Stream(s) == ReadFrame(old(barely[s] + Stream(s)), ParserOf(decode)).rest
                && dropped == if drop then old(dropped) + [s] else old(dropped)
      ensures AnswersFirst(old(ledger), s, old(barely[s] + Stream(s)), decode,
                           match r case Ok(_) => Ok((ledger, LastReply().1)) case Err(crash) => Err(crash))
      ensures forall t :: t != s ==> Stream(t) == old(Stream(t))
    {
      hide Settled, ReadFrame, Incomplete, Missing, AnswersFirst, LedgerOk, ParserOf, HandleCommand;
      SettledAnswers(ledger, s, barely[s] + Stream(s), decode);
      ghost var l0, input, frame := ledger, barely[s] + Stream(s), ReadFrame(barely[s] + Stream(s), ParserOf(decode));
      assert ledger == Assemble(l0, s, barely[s]);
      AssembleTwice(l0, s, barely[s], barely[s]);
      hide Assemble;
      while true
        invariant Agrees() && s in barely && Incomplete(barely[s]) && s in fds && s in ledger.place
        invariant ledger == Assemble(l0, s, barely[s]) && replies == old(replies)
        invariant barely[s] + Stream(s) == input
        invariant forall t :: t != s ==> Stream(t) == old(Stream(t))
        decreases Missing(barely[s])
      {
        SettledForgetsBytes(l0, s, barely[s], frame, decode);
        ghost var before := barely[s];
        var visit := VisitSocket(s, decode);
        match visit {
          case Err(crash) => return Err(crash);
          case Ok(StillPending) => AssembleTwice(l0, s, before, barely[s]);
          case Ok(NowDropped) => return Ok(true);
          case Ok(NowConnected) => return Ok(false);
        }
      }
    }

    /** Between two turns of the traversal: `order` is settled, `todo` is not visited yet. */
    ghost predicate Traversing(l0: Ledger, inputs: map<SocketId, seq<byte>>, order: seq<SocketId>, todo: set<SocketId>)
      reads this, selector
    {
      && Agrees()
      && fds == l0.fds
      && Distinct(order) && (forall s <- order :: s in inputs && s in fds)
      && (forall s :: s in order <==> s in l0.barely && Readable(s) && s !in todo)
      && (forall s <- todo :: s in l0.barely && s in barely && s in fds && s in ledger.place && Incomplete(barely[s]))
      && (forall s <- todo :: s in inputs && barely[s] + Stream(s) == inputs[s])
    }

    method VisitNext(it: SocketId, decode: Decoder, ghost l0: Ledger, ghost inputs: map<SocketId, seq<byte>>,
                     ghost order: seq<SocketId>, ghost todo: set<SocketId>)
      returns (r: Result<bool, Crash>)
      requires it in todo && Traversing(l0, inputs, order, todo) && Readable(it)
      modifies this`state, this`connections, this`nbConnected, this`starts, this`pushed, this`replies, this`streams
      modifies this`barely, this`dropped, this`ledger, selector`registered
      ensures var settled := Settled(old(ledger), it, ReadFrame(inputs[it], ParserOf(decode)), decode);
              match r
              case Err(crash) => settled == Err(crash)
              case Ok(drop) =>
                && Traversing(l0, inputs, order + [it], todo - {it})
                && settled.Ok? && ledger == settled.value.0
                && replies == old(replies) + [(it, settled.value.1)]
                && dropped == if drop then old(dropped) + [it] else old(dropped)
      ensures forall t :: t != it ==> Stream(t) == old(Stream(t))
    {
      hide ReadFrame, HandleCommand, LedgerOk, Incomplete, ParserOf;
      ghost var frame := ReadFrame(inputs[it], ParserOf(decode));
      r := VisitUntilSettled(it, decode);
      if r.Ok? {
        SettledFrame(old(ledger), it, frame, decode);
        assert forall s :: s in order + [it] <==> s in order || s == it;
      }
    }

    ghost predicate IsOrder(h: Traversal, order: seq<SocketId>)
      reads this`fds, selector`readable
    {
      Distinct(order) && forall s <- order :: s in h.inputs && s in h.start.fds && s in h.start.barely && Readable(s)
    }

    /** What the turns so far have settled, and answered. */
    ghost predicate SettledSoFar(h: Traversal, order: seq<SocketId>, todo: set<SocketId>, acks: seq<(SocketId, CommandAck)>,
                                 clientDropped: bool)
      reads this, selector
    {
      && Traversing(h.start, h.inputs, order, todo)
      && SettleAll(h.start, order, h.inputs, h.decode) == Ok((ledger, acks))
      && replies == h.replies + acks
      && (if clientDropped then |dropped| > |h.start.dropped| else dropped == h.start.dropped)
    }

    lemma OrderGrows(it: SocketId, h: Traversal, order: seq<SocketId>, todo: set<SocketId>)
      requires it in todo && Traversing(h.start, h.inputs, order, todo) && Readable(it)
      ensures IsOrder(h, order + [it])
    {
      assert it !in order;
    }

    /** The same turn, told by what has been settled so far. */
    method SettleNext(it: SocketId, ghost h: Traversal, ghost order: seq<SocketId>, ghost todo: set<SocketId>,
                      ghost acks: seq<(SocketId, CommandAck)>, clientDropped: bool, decode: Decoder)
      returns (r: Result<bool, Crash>, ghost ack: (SocketId, CommandAck))
      requires it in todo && SettledSoFar(h, order, todo, acks, clientDropped) && Readable(it) && decode == h.decode
      modifies this`state, this`connections, this`nbConnected, this`starts, this`pushed, this`replies, this`streams
      modifies this`barely, this`dropped, this`ledger, selector`registered
      ensures IsOrder(h, order + [it])
      ensures match r
              case Err(crash) => SettleAll(h.start, order + [it], h.inputs, decode) == Err(crash)
              case Ok(drop) => SettledSoFar(h, order + [it], todo - {it}, acks + [ack], drop)
      ensures forall t :: t != it ==> Stream(t) == old(Stream(t))
    {
      hide Settled, SettleAll, ReadFrame, LedgerOk, HandleCommand, Incomplete, Distinct, IsOrder;
      OrderGrows(it, h, order, todo);
      SettleOneMore(h.start, order, it, h.inputs, decode);
      ghost var settled := Settled(ledger, it, ReadFrame(h.inputs[it], ParserOf(decode)), decode);
      ack := (it, if settled.Ok? then settled.value.1 else CommandAck(false, NoInfo));
      r := VisitNext(it, decode, h.start, h.inputs, order, todo);
      if r.Ok? {
        r := Ok(clientDropped || r.value);
      }
    }

    lemma SkipUnreadable(it: SocketId, h: Traversal, order: seq<SocketId>, todo: set<SocketId>,
                         acks: seq<(SocketId, CommandAck)>, clientDropped: bool)
      requires SettledSoFar(h, order, todo, acks, clientDropped) && it in todo && !Readable(it)
      ensures SettledSoFar(h, order, todo - {it}, acks, clientDropped)
    {
    }

    method VisitAll(decode: Decoder, ghost h: Traversal)
      returns (r: Result<bool, Crash>, ghost order: seq<SocketId>, ghost acks: seq<(SocketId, CommandAck)>)
      requires SettledSoFar(h, [], barely.Keys, [], false) && decode == h.decode
      modifies this`state, this`connections, this`nbConnected, this`starts, this`pushed, this`replies, this`streams
      modifies this`barely, this`dropped, this`ledger, selector`registered
      ensures r.Ok? ==> SettledSoFar(h, order, {}, acks, r.value)
      ensures r.Err? ==> IsOrder(h, order) && SettleAll(h.start, order, h.inputs, decode) == Err(r.error)
      ensures forall t :: t !in old(barely) ==> Stream(t) == old(Stream(t))
    {
      var todo, clientDropped := barely.Keys, false;
      order, acks := [], [];
      while todo != {}
        invariant SettledSoFar(h, order, todo, acks, clientDropped)
        invariant todo <= old(barely).Keys && forall t :: t !in old(barely) ==> Stream(t) == old(Stream(t))
        decreases |todo|
      {
        var it :| it in todo;
        if Readable(it) {
          var visit, ack := SettleNext(it, h, order, todo, acks, clientDropped, decode);
          order := order + [it];
          if visit.Err? {
            return Err(visit.error), order, acks;
          }
          acks, clientDropped := acks + [ack], visit.value;
        } else {
          SkipUnreadable(it, h, order, todo, acks, clientDropped);
        }
        todo := todo - {it};
      }
      r := Ok(clientDropped);
    }

    /** The traversal of the barely connected sockets. `order` is the order in which the hash table
        gave those with something to read. */
    method TraverseBarelyConnected(decode: Decoder) returns (r: Result<bool, Crash>, ghost order: seq<SocketId>)
      requires Valid() && !state.SimulationFinished?
      modifies this`state, this`connections, this`nbConnected, this`starts, this`pushed, this`replies, this`streams
      modifies this`barely, this`dropped, this`ledger, selector`registered
      ensures Distinct(order) && forall s <- order :: s in old(Inputs()) && s in old(ledger).fds && Readable(s)
      ensures var settled := SettleAll(old(ledger), order, old(Inputs()), decode);
              match r
              case Err(crash) => settled == Err(crash)
              case Ok(clientDropped) =>
                && (forall s :: s in order <==> s in old(barely) && Readable(s))
                && settled.Ok? && ledger == settled.value.0 && replies == old(replies) + settled.value.1
                && Valid() && !state.SimulationFinished?
                && (clientDropped <==> dropped != old(dropped))
      ensures match r
              case Err(crash) => AnsweredAll(old(ledger), order, old(Inputs()), decode, Err(crash))
              case Ok(_) =>
                && old(replies) <= replies
                && AnsweredAll(old(ledger), order, old(Inputs()), decode, Ok((ledger, replies[|old(replies)|..])))
      ensures r.Ok? ==> old(dropped) <= dropped && forall t <- dropped :: t in old(dropped) || t in old(barely)
      ensures r.Ok? ==> (r.value <==> exists t <- dropped :: t !in old(dropped))
      ensures forall t :: t !in old(barely) ==> Stream(t) == old(Stream(t))
    {
      ghost var h := Traversal(ledger, Inputs(), replies, decode);
      assert forall s <- h.start.barely :: At(h.start, s, Barely);
      ghost var acks;
      hide AnsweredAll;
      r, order, acks := VisitAll(decode, h);
      SettleAllAnswers(h.start, order, h.inputs, decode);
      if r.Ok? {
        SettleAllKeepsOk(h.start, order, h.inputs, decode, signalFd, listenerFd);
        SettleAllDropped(h.start, order, h.inputs, decode);
        assert replies[|h.replies|..] == acks;
        OwnSocketsAreOpen(ledger);
        LongerHasMore(h.start.dropped, dropped);
      }
    }

    /** End of stream is an error that closes the socket: it leaves the list and the selector. */
    method EraseDropped(i: nat)
      requires Agrees() && i < |dropped| && dropped[i] in fds && dropped[i] in ledger.place
      modifies this`dropped, this`fds, this`ledger, selector`registered
      ensures Agrees() && ledger == Delete(old(ledger), i)
    {
      var s := dropped[i];
      ghost var next := Delete(ledger, i);
      selector.Remove(fds[s]);
      fds := fds - {s};
      dropped := dropped[..i] + dropped[i + 1..];
      ledger := next;
    }

    /** Bytes that a dropped client still sends are thrown away, 256 at most at a time. */
    method VisitDropped(i: nat) returns (erased: bool)
      requires Agrees() && i < |dropped| && dropped[i] in fds && dropped[i] in ledger.place
      modifies this`dropped, this`fds, this`streams, this`ledger, selector`registered
      ensures Agrees()
      ensures erased <==> old(Readable(dropped[i]) && Stream(dropped[i]) == [])
      ensures ledger == if erased then Delete(old(ledger), i) else old(ledger)
      ensures var s, before := old(dropped[i]), old(Stream(dropped[i]));
              if old(Readable(dropped[i])) && !erased then
                exists k :: 0 < k <= 256 && k <= |before| && Stream(s) == before[k..]
              else Stream(s) == before
      ensures forall t :: t != old(dropped[i]) ==> Stream(t) == old(Stream(t))
    {
      var s := dropped[i];
      erased := false;
      if Readable(s) {
        if Stream(s) == [] {
          erased := true;
          EraseDropped(i);
        } else {
          var k :| 0 < k <= 256 && k <= |Stream(s)|;
          streams := streams[s := Stream(s)[k..]];
        }
      }
    }

    /** After `k` turns of the traversal of the dropped sockets, at index `i`. */
    ghost predicate SweptSoFar(start: Ledger, closed: set<SocketId>, k: nat, i: nat)
      reads this, selector
    {
      && Agrees() && Distinct(start.dropped) && k <= |start.dropped|
      && (forall s <- start.dropped :: s in start.fds && s in start.place)
      && ledger == Sweep(start, Visited(start, closed, k)) && i == Position(start, closed, k)
      && (forall j | k <= j < |start.dropped| ::
            start.dropped[j] in closed <==> Readable(start.dropped[j]) && Stream(start.dropped[j]) == [])
    }

    lemma StaysReadable(q: seq<SocketId>, k: nat)
      requires Distinct(q) && k < |q|
      ensures forall j | k < j < |q| :: q[j] != q[k]
    {
    }

    /** One turn: the index moves on unless the socket was erased. */
    method VisitNextDropped(i: nat, ghost start: Ledger, ghost closed: set<SocketId>, ghost k: nat) returns (next: nat)
      requires SweptSoFar(start, closed, k, i) && i < |dropped| && k < |start.dropped|
      modifies this`dropped, this`fds, this`streams, this`ledger, selector`registered
      ensures SweptSoFar(start, closed, k + 1, next)
    {
      hide Sweep, Visited, Position, Distinct, LedgerOk;
      StaysReadable(start.dropped, k);
      SweepTurn(start, closed, k);
      var erased := VisitDropped(i);
      next := if erased then i else i + 1;
    }

    method VisitAllDropped(ghost start: Ledger, ghost closed: set<SocketId>)
      requires SweptSoFar(start, closed, 0, 0) && forall s <- closed :: s in start.dropped
      modifies this`dropped, this`fds, this`streams, this`ledger, selector`registered
      ensures Agrees() && ledger == Sweep(start, Visited(start, closed, |start.dropped|))
      ensures Visited(start, closed, |start.dropped|) == closed
    {
      ghost var k: nat := 0;
      var i: nat := 0;
      while i < |dropped|
        invariant SweptSoFar(start, closed, k, i)
        decreases |start.dropped| - k
      {
        SweepGoesOn(start, closed, k);
        i := VisitNextDropped(i, start, closed, k);
        k := k + 1;
      }
      SweepEnd(start, closed, k);
    }

    /** The traversal of the dropped sockets deletes exactly those whose client has closed. */
    method TraverseDropped()
      requires Valid()
      modifies this`dropped, this`fds, this`streams, this`ledger, selector`registered
      ensures Valid()
      ensures ledger == Sweep(old(ledger), old(set s | s in dropped && Readable(s) && Stream(s) == []))
    {
      hide Sweep, Visited, Position;
      ghost var start, closed := ledger, set s | s in dropped && Readable(s) && Stream(s) == [];
      assert forall s <- start.dropped :: At(start, s, Dropped);
      SweepStart(start, closed);
      SweepKeepsOk(start, closed, |start.dropped|, signalFd, listenerFd);
      hide LedgerOk, At;
      VisitAllDropped(start, closed);
    }

    // ----- messages of the SimGrid thread

    /** The first message is handled. The check that a created actor is not in the table yet never fails. */
    method HandleMessage()
      requires Valid() && toCommand != [] && !state.SimulationFinished?
      modifies this`state, this`connections, this`returnCode, this`dropped, this`toCommand, this`createAcks, this`ledger
      modifies selector`registered, selector`maxFd
      ensures Valid() && ledger == Receive(old(ledger)) && toCommand == old(toCommand)[1..]
      ensures match old(toCommand[0])
              case Finished => state == SimulationFinished && returnCode == old(returnCode)
              case Aborted(_) => state == SimulationFinished && returnCode == 1
              case ActorQuit(s) =>
                dropped == old(dropped) + [s] && s in fds && selector.registered == old(selector.registered) + {fds[s]}
              case ActorCreate(id, _, connectAck) =>
                && id !in old(connections)
                && connections == old(connections)[id := ActorConnection("unset", "unset", id, None, Some(connectAck))]
      ensures createAcks == match old(toCommand[0])
                            case ActorCreate(_, canConnectAck, _) => old(createAcks) + [canConnectAck]
                            case _ => old(createAcks)
    {
      ReceiveKeepsOk(ledger, signalFd, listenerFd);
      ReceivedPlaces(ledger);
      hide LedgerOk, Receive;
      ObeyMessage();
    }

    method ObeyMessage()
      requires Agrees() && toCommand != []
      requires toCommand[0].ActorQuit? ==> toCommand[0].socket in fds && toCommand[0].socket in ledger.place
      requires toCommand[0].ActorCreate? ==> toCommand[0].id !in connections
      modifies this`state, this`connections, this`returnCode, this`dropped, this`toCommand, this`createAcks, this`ledger
      modifies selector`registered, selector`maxFd
      ensures Agrees() && ledger == Receive(old(ledger)) && toCommand == old(toCommand)[1..]
      ensures match old(toCommand[0])
              case Finished => state == SimulationFinished && returnCode == old(returnCode)
              case Aborted(_) => state == SimulationFinished && returnCode == 1
              case ActorQuit(s) => dropped == old(dropped) + [s] && selector.registered == old(selector.registered) + {fds[s]}
              case ActorCreate(id, _, connectAck) =>
                connections == old(connections)[id := ActorConnection("unset", "unset", id, None, Some(connectAck))]
      ensures createAcks == match old(toCommand[0])
                            case ActorCreate(_, canConnectAck, _) => old(createAcks) + [canConnectAck]
                            case _ => old(createAcks)
    {
      match toCommand[0] {
        case Finished => SimulationEnds(returnCode);
        case Aborted(_) => SimulationEnds(1);
        case ActorQuit(s) => TakeBack(s);
        case ActorCreate(id, canConnectAck, connectAck) =>
          ExpectActor(id, canConnectAck, connectAck);
          createAcks := createAcks + [canConnectAck];
      }
    }

    method SimulationEnds(code: int)
      requires Agrees() && toCommand != [] && (toCommand[0].Finished? || toCommand[0].Aborted?)
      requires code == if toCommand[0].Finished? then returnCode else 1
      modifies this`state, this`returnCode, this`toCommand, this`ledger
      ensures Agrees() && ledger == Receive(old(ledger)) && toCommand == old(toCommand)[1..]
      ensures state == SimulationFinished && returnCode == code
    {
      state, returnCode := SimulationFinished, code;
      toCommand := toCommand[1..];
      ledger := Receive(ledger);
    }

    method TakeBack(s: SocketId)
      requires Agrees() && toCommand != [] && toCommand[0] == ActorQuit(s) && s in fds && s in ledger.place
      modifies this`dropped, this`toCommand, this`ledger, selector`registered, selector`maxFd
      ensures Agrees() && ledger == Receive(old(ledger)) && toCommand == old(toCommand)[1..]
      ensures dropped == old(dropped) + [s] && selector.registered == old(selector.registered) + {fds[s]}
    {
      dropped := dropped + [s];
      selector.Add(fds[s]);
      toCommand := toCommand[1..];
      ledger := Receive(ledger);
    }

    method ExpectActor(id: int, canConnectAck: QueueId, connectAck: QueueId)
      requires Agrees() && toCommand != [] && toCommand[0] == ActorCreate(id, canConnectAck, connectAck)
      requires id !in connections
      modifies this`connections, this`toCommand, this`ledger
      ensures Agrees() && ledger == Receive(old(ledger)) && toCommand == old(toCommand)[1..]
      ensures connections == old(connections)[id := ActorConnection("unset", "unset", id, None, Some(connectAck))]
    {
      connections := Insert(connections, ActorConnection("unset", "unset", id, None, Some(connectAck)));
      toCommand := toCommand[1..];
      ledger := Receive(ledger);
    }

    // ----- the SimGrid thread

    /** One step of the other thread: a message, and maybe a descriptor that it has closed. */
    method PushToCommand(m: InterthreadMessage, closed: Option<SocketId>, ghost next: Ledger)
      requires Agrees() && next.queue == ledger.queue + [m]
      requires next.fds == if closed.Some? then ledger.fds - {closed.value} else ledger.fds
      requires next.control == ledger.control && next.returnCode == ledger.returnCode
      requires next.barely == ledger.barely && next.dropped == ledger.dropped && next.registered == ledger.registered
      requires next.place.Keys == ledger.place.Keys
      modifies this`toCommand, this`fds, this`ledger
      ensures Agrees() && ledger == next && toCommand == old(toCommand) + [m]
      ensures fds == if closed.Some? then old(fds) - {closed.value} else old(fds)
    {
      toCommand := toCommand + [m];
      if closed.Some? {
        fds := fds - {closed.value};
      }
      ledger := next;
    }

    method ActorQuits(s: SocketId)
      requires Valid() && At(ledger, s, InSimulation)
      requires !ledger.engineDone && starts != [] && !state.SimulationFinished?
      modifies this`toCommand, this`fds, this`ledger
      ensures Valid() && ledger == Quit(old(ledger), s)
      ensures toCommand == old(toCommand) + [ActorQuit(s)] && fds == old(fds)
    {
      QuitKeepsOk(ledger, s, signalFd, listenerFd);
      hide LedgerOk;
      PushToCommand(ActorQuit(s), None, Quit(ledger, s));
    }

    method ActorCreates(id: int, canConnectAck: QueueId, connectAck: QueueId)
      requires Valid() && id !in connections && forall m <- toCommand :: m.ActorCreate? ==> m.id != id
      requires !ledger.engineDone && starts != [] && !state.SimulationFinished?
      modifies this`toCommand, this`fds, this`ledger
      ensures Valid() && ledger == Create(old(ledger), id, canConnectAck, connectAck)
      ensures toCommand == old(toCommand) + [ActorCreate(id, canConnectAck, connectAck)] && fds == old(fds)
    {
      CreateKeepsOk(ledger, id, canConnectAck, connectAck, signalFd, listenerFd);
      hide LedgerOk;
      PushToCommand(ActorCreate(id, canConnectAck, connectAck), None, Create(ledger, id, canConnectAck, connectAck));
    }

    /** An actor fails, or the launch (`victim` is None then). A client that has gone makes the blocking
        reader close the socket: its descriptor is free for the next client. */
    method SimulationAborts(reason: string, victim: Option<SocketId>, lost: bool)
      requires Valid() && !ledger.engineDone && starts != [] && !state.SimulationFinished?
      requires CanFail(ledger, victim)
      modifies this`toCommand, this`fds, this`ledger
      ensures Valid() && ledger == Abort(old(ledger), reason, victim, lost)
      ensures toCommand == old(toCommand) + [Aborted(reason)]
      ensures fds == if lost && victim.Some? then old(fds) - {victim.value} else old(fds)
    {
      AbortKeepsOk(ledger, reason, victim, lost, signalFd, listenerFd);
      AbortEffect(ledger, reason, victim, lost);
      hide LedgerOk, Abort;
      PushToCommand(Aborted(reason), if lost then victim else None, Abort(ledger, reason, victim, lost));
    }

    /** Unless an actor has failed, the engine runs until every actor has left. */
    method EngineEnds()
      requires Valid() && !ledger.engineDone && starts != [] && !state.SimulationFinished?
      requires ledger.aborted || EngineIdle(ledger)
      modifies this`toCommand, this`fds, this`ledger
      ensures Valid() && ledger == EngineReturns(old(ledger))
      ensures toCommand == old(toCommand) + [Finished] && fds == old(fds)
    {
      EngineReturnsKeepsOk(ledger, signalFd, listenerFd);
      hide LedgerOk;
      PushToCommand(Finished, None, EngineReturns(ledger));
    }

    // ----- the end

    /** A deleted socket is not in `fds` any more: none is deleted twice. */
    method DeleteSocket(s: SocketId)
      requires s in fds
      modifies this`fds
      ensures fds == old(fds) - {s}
    {
      fds := fds - {s};
    }

    method CloseBarelyConnected()
      requires barely.Keys <= fds.Keys
      modifies this`barely, this`fds
      ensures barely == map[] && fds == old(fds) - old(barely).Keys
    {
      var left := barely.Keys;
      while left != {}
        invariant left <= old(barely).Keys && fds == old(fds) - (old(barely).Keys - left)
        decreases |left|
      {
        var s :| s in left;
        DeleteSocket(s);
        left := left - {s};
      }
      barely := map[];
    }

    method CloseDropped()
      requires Distinct(dropped) && forall s <- dropped :: s in fds
      modifies this`dropped, this`fds
      ensures dropped == [] && fds == old(fds) - set s | s in old(dropped)
    {
      var i := 0;
      while i < |dropped|
        invariant 0 <= i <= |dropped| && dropped == old(dropped)
        invariant fds == old(fds) - set s | s in dropped[..i]
      {
        assert dropped[i] !in dropped[..i];
        DeleteSocket(dropped[i]);
        assert dropped[..i + 1] == dropped[..i] + [dropped[i]];
        i := i + 1;
      }
      assert dropped[..i] == dropped;
      dropped := [];
    }

    method CloseOpenSockets()
      requires Valid()
      modifies this`barely, this`dropped, this`fds
      ensures barely == map[] && dropped == []
      ensures fds == old(fds) - old(barely).Keys - set s | s in old(dropped)
      ensures forall s :: s in fds <==> OnSimGridSide(ledger, s)
    {
      CleanEnd(ledger);
      OwnSocketsAreOpen(ledger);
      hide LedgerOk;
      CloseBarelyConnected();
      CloseDropped();
    }

    /** What the command thread returns. A run that ends well has closed every socket it accepted; in
        any run, those that stay open are exactly those that the SimGrid side still had. */
    method Leave() returns (code: int)
      requires Valid() && (state.SimulationFinished? || state.Killed?)
      modifies this`barely, this`dropped, this`fds
      ensures code == returnCode
      ensures forall s :: s in fds <==> OnSimGridSide(ledger, s)
      ensures state.SimulationFinished? && code == 0 ==> fds == map[]
    {
      CleanEnd(ledger);
      assert state.SimulationFinished? && returnCode == 0 ==> forall s :: !OnSimGridSide(ledger, s);
      CloseOpenSockets();
      code := returnCode;
    }

    // ----- the event loop

    /** The sockets of dropped clients, when they are looked at. */
    method SweepUnless(clientDropped: bool) returns (ghost closed: set<SocketId>)
      requires Valid()
      modifies this`dropped, this`fds, this`streams, this`ledger, selector`registered
      ensures Valid() && ledger == Sweep(old(ledger), closed)
      ensures closed == if clientDropped then {} else old(set s | s in dropped && Readable(s) && Stream(s) == [])
      ensures forall t :: t in dropped <==>
                t in old(dropped) && (clientDropped || !(old(Readable(t)) && old(Stream(t)) == []))
      ensures forall t :: t in fds <==> t in old(fds) && (t in old(dropped) ==> t in dropped)
      ensures forall t <- fds :: fds[t] == old(fds)[t]
    {
      hide LedgerOk, Sweep;
      closed := if clientDropped then {} else set s | s in dropped && Readable(s) && Stream(s) == [];
      SweepDropped(ledger, closed);
      if clientDropped {
        SweepNone(ledger);
      } else {
        TraverseDropped();
      }
    }

    /** Dropped sockets are looked at only when no socket was dropped in the same turn. */
    method ServeClients(decode: Decoder)
      returns (r: Result<bool, Crash>, ghost order: seq<SocketId>, ghost closed: set<SocketId>)
      requires Valid() && !state.SimulationFinished?
      modifies this`state, this`connections, this`nbConnected, this`starts, this`pushed, this`replies, this`streams
      modifies this`barely, this`dropped, this`fds, this`ledger, selector`registered
      ensures Distinct(order) && forall s <- order :: s in old(Inputs()) && s in old(ledger).fds
      ensures r.Ok? ==> forall s :: s in order <==> s in old(barely) && old(Readable(s))
      ensures var settled := SettleAll(old(ledger), order, old(Inputs()), decode);
              match r
              case Err(crash) => settled == Err(crash)
              case Ok(clientDropped) =>
                && Valid() && !state.SimulationFinished?
                && settled.Ok? && replies == old(replies) + settled.value.1
                && ledger == Sweep(settled.value.0, closed) && (clientDropped ==> closed == {})
                && (forall s <- closed :: s in settled.value.0.dropped)
      ensures r.Ok? ==>
                Follow(old(ledger), old(Closing()), false, ledger)
      ensures match r
              case Err(crash) => AnsweredAll(old(ledger), order, old(Inputs()), decode, Err(crash))
              case Ok(_) =>
                && old(replies) <= replies
                && ServedAsSent(old(ledger), order, old(Inputs()), decode, ledger, replies[|old(replies)|..])
      ensures r.Ok? ==> forall s :: s in barely <==> s in old(barely) && !old(Readable(s))
    {
      hide SettleAll, Sweep, AnsweredAll, ServedAsSent, ControlInv, Descriptors, Links, Messages, Victims, Distinct, Partition;
      BarelyAreNotDropped(ledger);
      DroppedAreOpen(ledger);
      hide LedgerOk;
      r, order := TraverseBarelyConnected(decode);
      closed := {};
      if r.Ok? {
        ghost var settled := ledger;
        SettleAllLeaves(old(ledger), order, old(Inputs()), decode);
        closed := SweepUnless(r.value);
        SweptAsSent(old(ledger), order, old(Inputs()), decode, settled, closed, replies[|old(replies)|..]);
      }
    }

    lemma ValidDropped()
      requires Valid()
      ensures forall t <- ledger.dropped :: t in ledger.fds
    {
      DroppedAreOpen(ledger);
    }

    /** The listener goes before the clients. */
    method ServeReady(fd: int, stream: seq<byte>, decode: Decoder)
      returns (r: Result<bool, Crash>, ghost order: seq<SocketId>, ghost closed: set<SocketId>)
      requires Valid() && !state.SimulationFinished?
      requires fd != signalFd && fd != listenerFd && forall t <- fds :: fds[t] != fd
      modifies this, selector`registered, selector`maxFd
      ensures r.Ok? ==> Valid() && !state.SimulationFinished?
      ensures r.Ok? && !selector.IsReadable(listenerFd) ==> forall s :: s in order <==> s in old(barely) && old(Readable(s))
      ensures IsReadyTurn(old(ledger), selector.IsReadable(listenerFd), old(nextSocket), fd, order, closed, old(Inputs()),
                          decode, if r.Ok? then Ok(ledger) else Err(r.error))
      ensures r.Ok? ==> toCommand == old(toCommand)
      ensures r.Ok? ==>
                Follow(old(ledger), old(Closing()),
                       old(selector.IsReadable(listenerFd)), ledger)
      ensures !old(selector.IsReadable(listenerFd)) ==>
                match r
                case Err(crash) => AnsweredAll(old(ledger), order, old(Inputs()), decode, Err(crash))
                case Ok(_) =>
                  && old(replies) <= replies
                  && ServedAsSent(old(ledger), order, old(Inputs()), decode, ledger, replies[|old(replies)|..])
                  && forall s :: s in barely <==> s in old(barely) && !old(Readable(s))
      ensures old(selector.IsReadable(listenerFd)) ==>
                && r.Ok? && barely == old(barely)[old(nextSocket) := []] && replies == old(replies)
                && GetControl() == old(GetControl())
    {
      hide LedgerOk, SettleAll, Sweep, Follow, ReadFrame, ParserOf, Incomplete, AnsweredAll, ServedAsSent;
      ValidDropped();
      order, closed := [], {};
      if selector.IsReadable(listenerFd) {
        AcceptFollows(ledger, Closing(), nextSocket, fd);
        var s := AcceptClient(fd, stream);
        r := Ok(false);
      } else {
        r, order, closed := ServeClients(decode);
      }
    }

    method Watch(ready: set<int>) returns (any: bool)
      requires Valid()
      modifies selector`readable
      ensures Valid() && selector.readable == selector.registered * ready
      ensures any <==> selector.readable != {}
      ensures selector.IsReadable(signalFd) <==> signalFd in ready
      ensures selector.IsReadable(listenerFd) <==> listenerFd in ready
      ensures forall s :: s in barely || s in dropped ==> (Readable(s) <==> s in fds && fds[s] in ready)
    {
      forall s | (s in barely || s in dropped) && s in fds
        ensures fds[s] in selector.registered
      {
        assert fds[s] in Watched(ledger);
      }
      any := selector.WaitAnyReadable(ready);
    }

    method ReceiveOne()
      requires Valid() && !state.SimulationFinished?
      modifies this`state, this`connections, this`returnCode, this`dropped, this`toCommand, this`createAcks, this`ledger
      modifies selector`registered, selector`maxFd
      ensures Valid() && ledger == NextMessage(old(ledger))
      ensures toCommand == if old(toCommand) == [] then [] else old(toCommand)[1..]
      ensures forall t :: t in dropped <==>
                t in old(dropped) || (old(toCommand) != [] && old(toCommand)[0] == ActorQuit(t))
    {
      if toCommand != [] {
        ReceivedPlaces(ledger);
        ReceivedDropped(ledger);
        HandleMessage();
      }
    }

    /** A turn without a signal. */
    method TakeTurn(any: bool, fd: int, stream: seq<byte>, decode: Decoder)
      returns (r: Result<bool, Crash>, ghost order: seq<SocketId>, ghost closed: set<SocketId>,
               ghost served: Result<Ledger, Crash>)
      requires Valid() && !state.SimulationFinished? && (any <==> selector.readable != {})
      requires fd != signalFd && fd != listenerFd && forall t <- fds :: fds[t] != fd
      modifies this, selector`registered, selector`maxFd
      ensures r.Ok? ==> Valid() && served.Ok? && ledger == NextMessage(served.value)
      ensures r.Err? ==> served == Err(r.error)
      ensures any ==>
                IsReadyTurn(old(ledger), old(selector.IsReadable(listenerFd)), old(nextSocket), fd, order, closed,
                            old(Inputs()), decode, served)
      ensures !any ==> served == Ok(old(ledger)) && order == []
      ensures r.Ok? && any && !old(selector.IsReadable(listenerFd)) ==>
                forall s :: s in order <==> s in old(barely) && old(Readable(s))
      ensures r.Ok? ==> toCommand == if old(toCommand) == [] then [] else old(toCommand)[1..]
      ensures r.Ok? ==>
                Followed(old(ledger), old(Closing()),
                         old(selector.IsReadable(listenerFd)), ledger)
      ensures !old(selector.IsReadable(listenerFd)) ==>
                match r
                case Err(crash) => AnsweredAll(old(ledger), order, old(Inputs()), decode, Err(crash))
                case Ok(_) =>
                  && old(replies) <= replies && served.Ok?
                  && ServedAsSent(old(ledger), order, old(Inputs()), decode, served.value, replies[|old(replies)|..])
                  && forall s :: s in barely <==> s in old(barely) && !old(Readable(s))
      ensures old(selector.IsReadable(listenerFd)) ==>
                r.Ok? && barely == old(barely)[old(nextSocket) := []] && replies == old(replies)
    {
      hide LedgerOk, IsReadyTurn, NextMessage, ParserOf, Follow, Followed, AnsweredAll, ServedAsSent, Closing;
      ghost var before, gone, listened := ledger, Closing(), selector.IsReadable(listenerFd);
      r, order, closed, served := ServeIfReady(any, fd, stream, decode);
      if r.Ok? {
        ghost var between := ledger;
        ReceiveOne();
        MessageFollows(before, gone, listened, between, ledger, signalFd, listenerFd);
      }
    }

    method ServeIfReady(any: bool, fd: int, stream: seq<byte>, decode: Decoder)
      returns (r: Result<bool, Crash>, ghost order: seq<SocketId>, ghost closed: set<SocketId>,
               ghost served: Result<Ledger, Crash>)
      requires Valid() && !state.SimulationFinished? && (any <==> selector.readable != {})
      requires fd != signalFd && fd != listenerFd && forall t <- fds :: fds[t] != fd
      modifies this, selector`registered, selector`maxFd
      ensures r.Ok? ==> Valid() && !state.SimulationFinished? && served == Ok(ledger) && toCommand == old(toCommand)
      ensures r.Err? ==> served == Err(r.error)
      ensures any ==>
                IsReadyTurn(old(ledger), old(selector.IsReadable(listenerFd)), old(nextSocket), fd, order, closed,
                            old(Inputs()), decode, served)
      ensures !any ==> served == Ok(old(ledger)) && order == []
      ensures r.Ok? && any && !old(selector.IsReadable(listenerFd)) ==>
                forall s :: s in order <==> s in old(barely) && old(Readable(s))
      ensures r.Ok? ==> Follow(old(ledger), old(Closing()), old(selector.IsReadable(listenerFd)), ledger)
      ensures !old(selector.IsReadable(listenerFd)) ==>
                match r
                case Err(crash) => AnsweredAll(old(ledger), order, old(Inputs()), decode, Err(crash))
                case Ok(_) =>
                  && old(replies) <= replies
                  && ServedAsSent(old(ledger), order, old(Inputs()), decode, ledger, replies[|old(replies)|..])
                  && forall s :: s in barely <==> s in old(barely) && !old(Readable(s))
      ensures old(selector.IsReadable(listenerFd)) ==>
                r.Ok? && barely == old(barely)[old(nextSocket) := []] && replies == old(replies)
    {
      order, closed, served := [], {}, Ok(ledger);
      r := Ok(false);
      if any {
        hide LedgerOk, IsReadyTurn, Follow, AnsweredAll, ServedAsSent, Closing;
        r, order, closed := ServeReady(fd, stream, decode);
        served := if r.Ok? then Ok(ledger) else Err(r.error);
      } else {
        NothingReady(decode);
        hide LedgerOk, Follow, ServedAsSent, Closing;
      }
    }

    lemma NothingReady(decode: Decoder)
      requires Valid() && selector.readable == {}
      ensures Follow(ledger, Closing(), false, ledger) && forall s :: !Readable(s)
      ensures ServedAsSent(ledger, [], Inputs(), decode, ledger, [])
    {
      assert Closing() == {};
      UnservedFollow(ledger, {}, false);
      NobodyServed(ledger, Inputs(), decode);
    }

    /** One turn of the loop, on the descriptors in `ready`; `fd` and `stream` are those of a pending
        client. A signal ends the loop with code 1. Otherwise a new client is accepted, or else the
        clients in `order` are settled and those in `closed` deleted, and then one message is handled. */
    method Iterate(ready: set<int>, fd: int, stream: seq<byte>, decode: Decoder)
      returns (r: Result<Option<int>, Crash>, ghost order: seq<SocketId>, ghost closed: set<SocketId>,
               ghost served: Result<Ledger, Crash>)
      requires Valid() && !state.SimulationFinished? && !state.Killed?
      requires fd != signalFd && fd != listenerFd && forall t <- fds :: fds[t] != fd
      modifies this, selector
      ensures r == Ok(None) ==> Valid() && served.Ok? && ledger == NextMessage(served.value)
      ensures signalFd !in ready ==> r == if served.Ok? then Ok(None) else Err(served.error)
      ensures signalFd in ready ==>
                && r == Ok(Some(1)) && barely == map[] && dropped == []
                && forall s :: s in fds <==> old(OnSimGridSide(ledger, s))
      ensures signalFd !in ready && ready * old(selector.registered) != {} ==>
                IsReadyTurn(old(ledger), listenerFd in ready, old(nextSocket), fd, order, closed, old(Inputs()), decode, served)
      ensures ready * old(selector.registered) == {} ==> served == Ok(old(ledger))
      ensures r == Ok(None) && listenerFd !in ready ==>
                forall s :: s in order <==> s in old(barely) && s in old(fds) && old(fds)[s] in ready
      ensures r == Ok(None) ==> toCommand == if old(toCommand) == [] then [] else old(toCommand)[1..]
      ensures signalFd !in ready && listenerFd in ready ==>
                r == Ok(None) && barely == old(barely)[old(nextSocket) := []] && replies == old(replies)
      ensures signalFd !in ready && listenerFd !in ready ==>
                match r
                case Err(crash) => AnsweredAll(old(ledger), order, old(Inputs()), decode, Err(crash))
                case Ok(_) =>
                  && old(replies) <= replies && served.Ok?
                  && ServedAsSent(old(ledger), order, old(Inputs()), decode, served.value, replies[|old(replies)|..])
                  && forall s :: s in barely <==> s in old(barely) && !(s in old(fds) && old(fds)[s] in ready)
      ensures r == Ok(None) ==>
                var clientDropped := exists s <- old(barely) :: s in dropped;
                forall t <- old(dropped) ::
                  && t in old(fds)
                  && (t in dropped <==>
                        listenerFd in ready || clientDropped || !(old(fds)[t] in ready && old(Stream(t)) == []))
      ensures r == Ok(None) ==>
                forall t <- old(dropped) ::
                  && t in old(fds)
                  && (t in fds <==> t in dropped) && (old(fds)[t] in selector.registered <==> t in dropped)
    {
      hide LedgerOk, IsReadyTurn, AnsweredAll, ServedAsSent;
      order, closed, served := [], {}, Ok(ledger);
      var any := Watch(ready);
      if any && selector.IsReadable(signalFd) {
        CloseOpenSockets();
        return Ok(Some(1)), order, closed, served;
      }
      var turn;
      turn, order, closed, served := TakeTurn(any, fd, stream, decode);
      r := if turn.Err? then Err(turn.error) else Ok(None);
    }
  }
}
