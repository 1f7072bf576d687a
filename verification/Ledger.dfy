/** Where the sockets of the server are. A socket is named by a number that is never reused; its file
    descriptor is whatever the kernel gives. This module is the value-level account of what the
    command thread and the SimGrid thread do to them, with the invariant that all of it keeps. */
module Ledgers {
  import opened Wrappers
  import opened Wire
  import opened Commands

  /** Messages of the SimGrid thread to the command thread. */
  datatype InterthreadMessage =
    | Finished
    | Aborted(reason: string)
    | ActorQuit(socket: SocketId)
    | ActorCreate(id: int, canConnectAck: QueueId, connectAck: QueueId)

  /** Where an accepted socket is: not connected to an actor yet, dropped, used by the SimGrid side,
      handed back by an ACTOR_QUIT message that is not handled yet, deleted, or left behind by an actor
      that failed: `Severed` when the failure was the end of the stream, which closes the descriptor,
      `Abandoned` otherwise. */
  datatype Place = Barely | Dropped | InSimulation | Returning | Deleted | Abandoned | Severed

  /** `control`, `barely` (with the bytes assembled so far), `dropped`, `queue`, `fds` (of the sockets
      that are open) and `registered` (the selector) are the state of the program. The rest is history:
      the place of every socket ever accepted, the actor it was connected to, whether an actor has
      failed, whether the engine has returned. */
  datatype Ledger = Ledger(
    control: Control,
    returnCode: int,
    barely: map<SocketId, seq<byte>>,
    dropped: seq<SocketId>,
    queue: seq<InterthreadMessage>,
    fds: map<SocketId, int>,
    registered: set<int>,
    place: map<SocketId, Place>,
    actorOf: map<SocketId, int>,
    aborted: bool,
    engineDone: bool)

  predicate Distinct<T(==)>(s: seq<T>) {
    forall i, j | 0 <= i < j < |s| :: s[i] != s[j]
  }

  predicate At(l: Ledger, s: SocketId, p: Place) {
    s in l.place && l.place[s] == p
  }

  /** The containers of the program hold exactly the sockets whose place they are, each once. */
  ghost predicate Partition(l: Ledger) {
    && (forall s :: s in l.barely <==> At(l, s, Barely))
    && (forall s :: s in l.dropped <==> At(l, s, Dropped))
    && (forall s :: ActorQuit(s) in l.queue <==> At(l, s, Returning))
    && (forall s :: s in l.fds <==> s in l.place && !l.place[s].Deleted? && !l.place[s].Severed?)
    && Distinct(l.dropped)
    && (forall s <- l.barely :: Incomplete(l.barely[s]))
  }

  /** Descriptors of the sockets that the command thread itself reads. */
  function Watched(l: Ledger): set<int> {
    set s | s in l.fds && (s in l.barely || s in l.dropped) :: l.fds[s]
  }

  /** Open sockets have descriptors of their own; the selector watches the command thread's
      sockets and nothing else. */
  ghost predicate Descriptors(l: Ledger, signalFd: int, listenerFd: int) {
    && signalFd != listenerFd
    && (forall s <- l.fds :: l.fds[s] != signalFd && l.fds[s] != listenerFd)
    && (forall s, t | s in l.fds && t in l.fds && s != t :: l.fds[s] != l.fds[t])
    && l.registered == {signalFd, listenerFd} + Watched(l)
  }

  /** A socket on the SimGrid side belongs to exactly one connected actor. */
  ghost predicate Links(l: Ledger) {
    var m := l.control.connections;
    && (forall k | k in m && m[k].socket.Some? ::
          var s := m[k].socket.value;
          s in l.place && !l.place[s].Barely? && s in l.actorOf && l.actorOf[s] == k)
    && (forall s <- l.actorOf :: l.actorOf[s] in m && m[l.actorOf[s]].socket == Some(s))
    && (forall s <- l.place :: l.place[s].InSimulation? || l.place[s].Returning? || l.place[s].Abandoned? ==> s in l.actorOf)
  }

  /** All actors have left, and none is being created. */
  ghost predicate EngineIdle(l: Ledger) {
    && (forall s <- l.place :: !l.place[s].InSimulation?)
    && (forall k <- l.control.connections :: l.control.connections[k].socket.Some?)
    && (forall m <- l.queue :: !m.ActorCreate?)
  }

  ghost predicate HasAbort(queue: seq<InterthreadMessage>) {
    exists i :: 0 <= i < |queue| && queue[i].Aborted?
  }

  ghost predicate Messages(l: Ledger) {
    && (l.queue != [] || l.engineDone || l.aborted ==> l.control.starts != [])
    && (forall i, j | 0 <= i < j < |l.queue| && l.queue[i].ActorQuit? :: l.queue[i] != l.queue[j])
    && (forall i | 0 <= i < |l.queue| && l.queue[i].ActorCreate? :: l.queue[i].id !in l.control.connections)
    && (forall i, j | 0 <= i < j < |l.queue| && l.queue[i].ActorCreate? && l.queue[j].ActorCreate? ::
          l.queue[i].id != l.queue[j].id)
    && (forall i | 0 <= i < |l.queue| && l.queue[i].Finished? :: i == |l.queue| - 1 && l.engineDone)
    && (l.engineDone && !l.aborted ==> EngineIdle(l))
    && (l.aborted && !l.control.state.SimulationFinished? ==> HasAbort(l.queue))
    && (l.control.state.SimulationFinished? && l.returnCode == 0 ==> l.queue == [] && l.engineDone && !l.aborted)
  }

  /** Sockets are left behind by failures only. */
  ghost predicate Victims(l: Ledger) {
    !l.aborted ==> forall s <- l.place :: !l.place[s].Abandoned? && !l.place[s].Severed?
  }

  ghost predicate LedgerOk(l: Ledger, signalFd: int, listenerFd: int) {
    && ControlInv(l.control)
    && Partition(l)
    && Descriptors(l, signalFd, listenerFd)
    && Links(l)
    && Messages(l)
    && Victims(l)
  }

  // ----- what the command thread does

  function InitialLedger(signalFd: int, listenerFd: int): Ledger {
    Ledger(INITIAL_CONTROL, 0, map[], [], [], map[], {signalFd, listenerFd}, map[], map[], false, false)
  }

  function Accept(l: Ledger, s: SocketId, fd: int): Ledger {
    l.(barely := l.barely[s := []], fds := l.fds[s := fd], registered := l.registered + {fd},
       place := l.place[s := Barely])
  }

  function Assemble(l: Ledger, s: SocketId, bytes: seq<byte>): Ledger {
    l.(barely := l.barely[s := bytes])
  }

  /** A command of socket `s` was handled: the socket is dropped, or leaves for the SimGrid side. */
  function Settle(l: Ledger, s: SocketId, c: Command, next: Control, drop: bool): Ledger
    requires s in l.fds
  {
    var l1 := l.(control := next, barely := l.barely - {s});
    if drop then l1.(dropped := l.dropped + [s], place := l.place[s := Dropped])
    else l1.(registered := l.registered - {l.fds[s]}, place := l.place[s := InSimulation],
             actorOf := if c.Connect? then l.actorOf[s := c.id] else l.actorOf)
  }

  /** The client of the i-th dropped socket has closed it. */
  function Delete(l: Ledger, i: nat): Ledger
    requires i < |l.dropped| && l.dropped[i] in l.fds
  {
    var s := l.dropped[i];
    l.(dropped := l.dropped[..i] + l.dropped[i + 1..], fds := l.fds - {s}, registered := l.registered - {l.fds[s]},
       place := l.place[s := Deleted])
  }

  /** The first message of the queue is handled. */
  function Receive(l: Ledger): Ledger
    requires l.queue != [] && (l.queue[0].ActorQuit? ==> l.queue[0].socket in l.fds)
  {
    var l1 := l.(queue := l.queue[1..]);
    match l.queue[0]
    case Finished => l1.(control := l.control.(state := SimulationFinished))
    case Aborted(_) => l1.(control := l.control.(state := SimulationFinished), returnCode := 1)
    case ActorQuit(s) => 
      l1.(dropped := l.dropped + [s], registered := l.registered + {l.fds[s]}, place := l.place[s := Dropped])
    case ActorCreate(id, _, connectAck) =>
      match HandleCreate(l.control, id, connectAck)
      case Err(_) => l1
      case Ok(control) => l1.(control := control)
  }

  // ----- what the SimGrid thread does

  function Quit(l: Ledger, s: SocketId): Ledger {
    l.(queue := l.queue + [ActorQuit(s)], place := l.place[s := Returning])
  }

  function Create(l: Ledger, id: int, canConnectAck: QueueId, connectAck: QueueId): Ledger {
    l.(queue := l.queue + [ActorCreate(id, canConnectAck, connectAck)])
  }

  /** An actor fails, or the launch does (`victim` is None then). The blocking reader has closed the
      socket if the client has gone: its descriptor can be given to a new client. */
  function Abort(l: Ledger, reason: string, victim: Option<SocketId>, lost: bool): Ledger {
    var l1 := l.(queue := l.queue + [Aborted(reason)], aborted := true);
    match victim
    case None => l1
    case Some(s) =>
      if lost then l1.(fds := l.fds - {s}, place := l.place[s := Severed]) else l1.(place := l.place[s := Abandoned])
  }

  function EngineReturns(l: Ledger): Ledger {
    l.(queue := l.queue + [Finished], engineDone := true)
  }

  // ----- the invariant is kept

  lemma InitialLedgerOk(signalFd: int, listenerFd: int)
    requires signalFd != listenerFd
    ensures LedgerOk(InitialLedger(signalFd, listenerFd), signalFd, listenerFd)
  {
    assert ConnectedIds(map[]) == {};
  }

  lemma AcceptKeepsOk(l: Ledger, s: SocketId, fd: int, signalFd: int, listenerFd: int)
    requires LedgerOk(l, signalFd, listenerFd)
    requires s !in l.place && fd !in {signalFd, listenerFd} && forall t <- l.fds :: l.fds[t] != fd
    ensures LedgerOk(Accept(l, s, fd), signalFd, listenerFd)
  {
    hide ControlInv, Partition, Descriptors, Links, Messages;
    AcceptPartition(l, s, fd);
    AcceptDescriptors(l, s, fd, signalFd, listenerFd);
    AcceptLinks(l, s, fd);
    AcceptMessages(l, s, fd);
  }

  lemma AcceptLinks(l: Ledger, s: SocketId, fd: int)
    requires Links(l) && s !in l.place
    ensures Links(Accept(l, s, fd))
  {
  }

  lemma AcceptMessages(l: Ledger, s: SocketId, fd: int)
    requires Messages(l) && s !in l.place
    ensures Messages(Accept(l, s, fd))
  {
  }

  /** Steps that move no socket. */
  lemma SameLinks(l: Ledger, l1: Ledger)
    requires Links(l) && l1.control == l.control && l1.place == l.place && l1.actorOf == l.actorOf
    ensures Links(l1)
  {
  }

  lemma SameMessages(l: Ledger, l1: Ledger)
    requires Messages(l) && l1.control == l.control && l1.place == l.place && l1.queue == l.queue
    requires l1.aborted == l.aborted && l1.engineDone == l.engineDone && l1.returnCode == l.returnCode
    ensures Messages(l1)
  {
  }

  lemma SameDescriptors(l: Ledger, l1: Ledger, signalFd: int, listenerFd: int)
    requires Descriptors(l, signalFd, listenerFd) && l1.fds == l.fds && l1.registered == l.registered
    requires Watched(l1) == Watched(l)
    ensures Descriptors(l1, signalFd, listenerFd)
  {
  }

  lemma AcceptPartition(l: Ledger, s: SocketId, fd: int)
    requires Partition(l) && s !in l.place
    ensures Partition(Accept(l, s, fd))
  {
  }

  lemma AcceptDescriptors(l: Ledger, s: SocketId, fd: int, signalFd: int, listenerFd: int)
    requires Partition(l) && Descriptors(l, signalFd, listenerFd)
    requires s !in l.place && fd !in {signalFd, listenerFd} && forall t <- l.fds :: l.fds[t] != fd
    ensures Descriptors(Accept(l, s, fd), signalFd, listenerFd)
  {
    var l1 := Accept(l, s, fd);
    assert s in l1.fds && s in l1.barely && l1.fds[s] == fd;
    forall x | x in Watched(l)
      ensures x in Watched(l1)
    {
      var t :| t in l.fds && (t in l.barely || t in l.dropped) && l.fds[t] == x;
      assert t in l1.fds && l1.fds[t] == x;
    }
    assert Watched(l1) == Watched(l) + {fd};
  }

  lemma AssembleKeepsOk(l: Ledger, s: SocketId, bytes: seq<byte>, signalFd: int, listenerFd: int)
    requires LedgerOk(l, signalFd, listenerFd)
    requires s in l.barely && Incomplete(bytes)
    ensures LedgerOk(Assemble(l, s, bytes), signalFd, listenerFd)
  {
    hide ControlInv, Partition, Descriptors, Links, Messages;
    var l1 := Assemble(l, s, bytes);
    assert l1.barely.Keys == l.barely.Keys;
    AssemblePartition(l, s, bytes);
    StillWatched(l, l1);
    SameDescriptors(l, l1, signalFd, listenerFd);
    SameLinks(l, l1);
    SameMessages(l, l1);
  }

  lemma AssemblePartition(l: Ledger, s: SocketId, bytes: seq<byte>)
    requires Partition(l) && s in l.barely && Incomplete(bytes)
    ensures Partition(Assemble(l, s, bytes))
  {
  }

  lemma QuitKeepsOk(l: Ledger, s: SocketId, signalFd: int, listenerFd: int)
    requires LedgerOk(l, signalFd, listenerFd)
    requires At(l, s, InSimulation) && !l.engineDone && l.control.starts != [] && !l.control.state.SimulationFinished?
    ensures LedgerOk(Quit(l, s), signalFd, listenerFd)
  {
    hide ControlInv, Partition, Descriptors, Links, Messages;
    QuitPartition(l, s);
    SameDescriptors(l, Quit(l, s), signalFd, listenerFd);
    QuitLinks(l, s);
    QuitMessages(l, s);
  }

  lemma QuitLinks(l: Ledger, s: SocketId)
    requires Links(l) && At(l, s, InSimulation)
    ensures Links(Quit(l, s))
  {
  }

  lemma QuitPartition(l: Ledger, s: SocketId)
    requires Partition(l) && At(l, s, InSimulation)
    ensures Partition(Quit(l, s)) && Watched(Quit(l, s)) == Watched(l)
  {
    assert Watched(Quit(l, s)) == Watched(l);
  }

  lemma QuitMessages(l: Ledger, s: SocketId)
    requires Partition(l) && Messages(l) && At(l, s, InSimulation)
    requires !l.engineDone && l.control.starts != [] && !l.control.state.SimulationFinished?
    ensures Messages(Quit(l, s))
  {
    assert ActorQuit(s) !in l.queue;
    AbortStays(l.queue, ActorQuit(s));
  }

  lemma AbortStays(queue: seq<InterthreadMessage>, m: InterthreadMessage)
    ensures HasAbort(queue + [m]) <==> HasAbort(queue) || m.Aborted?
  {
    if HasAbort(queue) {
      var i :| 0 <= i < |queue| && queue[i].Aborted?;
      assert (queue + [m])[i].Aborted?;
    }
    if m.Aborted? {
      assert (queue + [m])[|queue|].Aborted?;
    }
  }

  lemma CreateKeepsOk(l: Ledger, id: int, a: QueueId, b: QueueId, signalFd: int, listenerFd: int)
    requires LedgerOk(l, signalFd, listenerFd)
    requires !l.engineDone && l.control.starts != [] && !l.control.state.SimulationFinished?
    requires id !in l.control.connections && forall m <- l.queue :: m.ActorCreate? ==> m.id != id
    ensures LedgerOk(Create(l, id, a, b), signalFd, listenerFd)
  {
    hide ControlInv, Partition, Descriptors, Links, Messages;
    var l1 := Create(l, id, a, b);
    StillWatched(l, l1);
    SameDescriptors(l, l1, signalFd, listenerFd);
    SamePartition(l, l1, ActorCreate(id, a, b));
    SameLinks(l, l1);
    CreateMessages(l, id, a, b);
  }

  lemma SamePartition(l: Ledger, l1: Ledger, m: InterthreadMessage)
    requires Partition(l) && !m.ActorQuit? && l1.queue == l.queue + [m]
    requires l1.barely == l.barely && l1.dropped == l.dropped && l1.fds == l.fds && l1.place == l.place
    ensures Partition(l1)
  {
    forall s
      ensures ActorQuit(s) in l1.queue <==> At(l1, s, Returning)
    {
      assert ActorQuit(s) in l.queue <==> At(l, s, Returning);
    }
  }

  lemma CreateMessages(l: Ledger, id: int, a: QueueId, b: QueueId)
    requires Messages(l) && !l.engineDone && l.control.starts != [] && !l.control.state.SimulationFinished?
    requires id !in l.control.connections && forall m <- l.queue :: m.ActorCreate? ==> m.id != id
    ensures Messages(Create(l, id, a, b))
  {
    AbortStays(l.queue, ActorCreate(id, a, b));
  }

  ghost predicate CanFail(l: Ledger, victim: Option<SocketId>) {
    victim.Some? ==> At(l, victim.value, InSimulation)
  }

  lemma AbortEffect(l: Ledger, reason: string, victim: Option<SocketId>, lost: bool)
    requires CanFail(l, victim)
    ensures var l1, closed := Abort(l, reason, victim, lost), if lost then victim else None;
            && l1.queue == l.queue + [Aborted(reason)]
            && l1.fds == (if closed.Some? then l.fds - {closed.value} else l.fds)
            && l1.control == l.control && l1.returnCode == l.returnCode && l1.barely == l.barely
            && l1.dropped == l.dropped && l1.registered == l.registered && l1.place.Keys == l.place.Keys
  {
  }

  lemma AbortKeepsOk(l: Ledger, reason: string, victim: Option<SocketId>, lost: bool, signalFd: int, listenerFd: int)
    requires LedgerOk(l, signalFd, listenerFd) && CanFail(l, victim)
    requires !l.engineDone && l.control.starts != [] && !l.control.state.SimulationFinished?
    ensures LedgerOk(Abort(l, reason, victim, lost), signalFd, listenerFd)
  {
    hide Partition, Descriptors, Links, Messages, ControlInv;
    AbortPartition(l, reason, victim, lost);
    AbortDescriptors(l, reason, victim, lost, signalFd, listenerFd);
    AbortLinks(l, reason, victim, lost);
    AbortMessages(l, reason, victim, lost);
  }

  lemma AbortPartition(l: Ledger, reason: string, victim: Option<SocketId>, lost: bool)
    requires Partition(l) && CanFail(l, victim)
    ensures Partition(Abort(l, reason, victim, lost))
  {
    var l1 := Abort(l, reason, victim, lost);
    forall s
      ensures ActorQuit(s) in l1.queue <==> At(l1, s, Returning)
    {
      assert ActorQuit(s) in l.queue <==> At(l, s, Returning);
    }
  }

  lemma AbortDescriptors(l: Ledger, reason: string, victim: Option<SocketId>, lost: bool, signalFd: int, listenerFd: int)
    requires Partition(l) && Descriptors(l, signalFd, listenerFd) && CanFail(l, victim)
    ensures Descriptors(Abort(l, reason, victim, lost), signalFd, listenerFd)
  {
    assert forall s <- l.barely :: At(l, s, Barely);
    assert forall s <- l.dropped :: At(l, s, Dropped);
    assert Watched(Abort(l, reason, victim, lost)) == Watched(l);
  }

  lemma AbortLinks(l: Ledger, reason: string, victim: Option<SocketId>, lost: bool)
    requires Links(l) && CanFail(l, victim)
    ensures Links(Abort(l, reason, victim, lost))
  {
  }

  lemma AbortMessages(l: Ledger, reason: string, victim: Option<SocketId>, lost: bool)
    requires Messages(l) && CanFail(l, victim)
    requires !l.engineDone && l.control.starts != [] && !l.control.state.SimulationFinished?
    ensures Messages(Abort(l, reason, victim, lost))
  {
    AbortStays(l.queue, Aborted(reason));
  }

  /** Unless an actor failed, the engine returns only when all actors have left. */
  lemma EngineReturnsKeepsOk(l: Ledger, signalFd: int, listenerFd: int)
    requires LedgerOk(l, signalFd, listenerFd)
    requires !l.engineDone && l.control.starts != [] && !l.control.state.SimulationFinished?
    requires l.aborted || EngineIdle(l)
    ensures LedgerOk(EngineReturns(l), signalFd, listenerFd)
  {
    hide ControlInv, Partition, Descriptors, Links, Messages;
    var l1 := EngineReturns(l);
    StillWatched(l, l1);
    SameDescriptors(l, l1, signalFd, listenerFd);
    SamePartition(l, l1, Finished);
    SameLinks(l, l1);
    EngineReturnsMessages(l);
  }

  lemma EngineReturnsMessages(l: Ledger)
    requires Messages(l) && !l.engineDone && l.control.starts != [] && !l.control.state.SimulationFinished?
    requires l.aborted || EngineIdle(l)
    ensures Messages(EngineReturns(l))
  {
    AbortStays(l.queue, Finished);
  }

  lemma RemoveAt(q: seq<SocketId>, i: nat)
    requires Distinct(q) && i < |q|
    ensures Distinct(q[..i] + q[i + 1..])
    ensures forall x :: x in q[..i] + q[i + 1..] <==> x in q && x != q[i]
  {
    var r := q[..i] + q[i + 1..];
    forall x | x in q && x != q[i]
      ensures x in r
    {
      var j :| 0 <= j < |q| && q[j] == x;
      assert r[if j < i then j else j - 1] == x;
    }
  }

  lemma AddAtEnd(q: seq<SocketId>, s: SocketId)
    requires Distinct(q) && s !in q
    ensures Distinct(q + [s])
    ensures forall x :: x in q + [s] <==> x in q || x == s
  {
  }

  lemma DeleteKeepsOk(l: Ledger, i: nat, signalFd: int, listenerFd: int)
    requires LedgerOk(l, signalFd, listenerFd)
    requires i < |l.dropped|
    ensures At(l, l.dropped[i], Dropped) && l.dropped[i] in l.fds
    ensures LedgerOk(Delete(l, i), signalFd, listenerFd)
  {
    DroppedIsOpen(l, i);
    hide ControlInv, Partition, Descriptors, Links, Messages;
    DeletePartition(l, i);
    DeleteDescriptors(l, i, signalFd, listenerFd);
    DeleteLinks(l, i);
    DeleteMessages(l, i);
  }

  lemma DroppedIsOpen(l: Ledger, i: nat)
    requires Partition(l) && i < |l.dropped|
    ensures At(l, l.dropped[i], Dropped) && l.dropped[i] in l.fds
  {
    assert l.dropped[i] in l.dropped;
  }

  lemma DeleteDescriptors(l: Ledger, i: nat, signalFd: int, listenerFd: int)
    requires Partition(l) && Descriptors(l, signalFd, listenerFd) && i < |l.dropped| && l.dropped[i] in l.fds
    requires At(l, l.dropped[i], Dropped)
    ensures Descriptors(Delete(l, i), signalFd, listenerFd)
  {
    DeletePartition(l, i);
    assert l.dropped[i] !in l.barely by {
      assert l.dropped[i] in l.barely <==> At(l, l.dropped[i], Barely);
    }
    hide Partition;
    Unwatch(l, Delete(l, i), l.dropped[i]);
  }

  lemma DeleteLinks(l: Ledger, i: nat)
    requires Links(l) && i < |l.dropped| && l.dropped[i] in l.fds && At(l, l.dropped[i], Dropped)
    ensures Links(Delete(l, i))
  {
  }

  lemma DeleteMessages(l: Ledger, i: nat)
    requires Messages(l) && i < |l.dropped| && l.dropped[i] in l.fds && At(l, l.dropped[i], Dropped)
    ensures Messages(Delete(l, i))
  {
  }

  lemma DeletePartition(l: Ledger, i: nat)
    requires Partition(l) && i < |l.dropped| && At(l, l.dropped[i], Dropped)
    ensures Partition(Delete(l, i))
    ensures forall x :: x in Delete(l, i).dropped <==> x in l.dropped && x != l.dropped[i]
  {
    RemoveAt(l.dropped, i);
    var l1, x := Delete(l, i), l.dropped[i];
    forall s
      ensures s in l1.dropped <==> At(l1, s, Dropped)
    {
      assert s in l1.dropped <==> s in l.dropped && s != x;
    }
  }

  /** A socket that is read no longer leaves the selector, and only it does. */
  lemma Unwatch(l: Ledger, l1: Ledger, s: SocketId)
    requires s in l.fds && (s in l.barely || s in l.dropped)
    requires forall t, u | t in l.fds && u in l.fds && t != u :: l.fds[t] != l.fds[u]
    requires forall t :: (t in l1.barely || t in l1.dropped) <==> (t in l.barely || t in l.dropped) && t != s
    requires l1.fds == l.fds || l1.fds == l.fds - {s}
    ensures Watched(l1) == Watched(l) - {l.fds[s]}
  {
    forall x | x in Watched(l) && x != l.fds[s]
      ensures x in Watched(l1)
    {
      var t :| t in l.fds && (t in l.barely || t in l.dropped) && l.fds[t] == x;
      assert t in l1.fds && l1.fds[t] == x;
    }
  }

  /** A socket that stays with the command thread, in another container. */
  lemma StillWatched(l: Ledger, l1: Ledger)
    requires l1.fds == l.fds
    requires forall t :: (t in l1.barely || t in l1.dropped) <==> (t in l.barely || t in l.dropped)
    ensures Watched(l1) == Watched(l)
  {
  }

  lemma NowWatched(l: Ledger, l1: Ledger, s: SocketId)
    requires l1.fds == l.fds && s in l.fds
    requires forall t :: (t in l1.barely || t in l1.dropped) <==> (t in l.barely || t in l.dropped || t == s)
    ensures Watched(l1) == Watched(l) + {l.fds[s]}
  {
    forall x | x in Watched(l)
      ensures x in Watched(l1)
    {
      var t :| t in l.fds && (t in l.barely || t in l.dropped) && l.fds[t] == x;
      assert t in l1.fds && l1.fds[t] == x;
    }
  }

  /** What a handled command does to the table when its socket is dropped. */
  ghost predicate DropEffect(s: Control, next: Control) {
    && !next.state.SimulationFinished?
    && (s.starts != [] ==> next.starts == s.starts && next.connections == s.connections)
    && (forall k | k in s.connections :: k in next.connections && next.connections[k].socket == s.connections[k].socket)
    && (forall k | k in next.connections :: k in s.connections || next.connections[k].socket.None?)
  }

  /** And when it is kept: one expected actor gets it. */
  ghost predicate ConnectEffect(s: Control, next: Control, id: int, issuer: SocketId) {
    && !next.state.SimulationFinished?
    && (s.starts != [] ==> next.starts == s.starts)
    && id in s.connections && s.connections[id].socket.None?
    && next.connections == s.connections[id := s.connections[id].(socket := Some(issuer))]
  }

  lemma CommandEffect(s: Control, c: Command, issuer: SocketId)
    requires ControlInv(s) && !s.state.SimulationFinished?
    ensures match HandleCommand(s, c, issuer)
            case Refused(_) => true
            case Handled(next, _, true) => DropEffect(s, next)
            case Handled(next, _, false) => c.Connect? && ConnectEffect(s, next, c.id, issuer)
  {
  }

  lemma DropKeepsOk(l: Ledger, s: SocketId, c: Command, next: Control, signalFd: int, listenerFd: int)
    requires LedgerOk(l, signalFd, listenerFd) && s in l.barely && s in l.fds && !l.control.state.SimulationFinished?
    requires ControlInv(next) && DropEffect(l.control, next)
    ensures LedgerOk(Settle(l, s, c, next, true), signalFd, listenerFd)
  {
    hide ControlInv, Partition, Descriptors, Links, Messages;
    var l1 := Settle(l, s, c, next, true);
    SettlePartition(l, s, c, next, true);
    SettleOwned(l, s, c, next, true);
    StillWatched(l, l1);
    SameDescriptors(l, l1, signalFd, listenerFd);
    DropMessages(l, s, c, next);
    DropLinks(l, s, c, next);
  }

  lemma ConnectKeepsOk(l: Ledger, s: SocketId, c: Command, next: Control, signalFd: int, listenerFd: int)
    requires LedgerOk(l, signalFd, listenerFd) && s in l.barely && s in l.fds && !l.control.state.SimulationFinished?
    requires ControlInv(next) && c.Connect? && ConnectEffect(l.control, next, c.id, s)
    ensures LedgerOk(Settle(l, s, c, next, false), signalFd, listenerFd)
  {
    hide ControlInv, Partition, Descriptors, Links, Messages;
    SettlePartition(l, s, c, next, false);
    ConnectDescriptors(l, s, c, next, signalFd, listenerFd);
    ConnectMessages(l, s, c, next);
    ConnectLinks(l, s, c, next);
  }

  /** Handling a command keeps the ledger: the control part by its own invariant, and the socket goes
      to exactly one new place. */
  lemma SettleKeepsOk(l: Ledger, s: SocketId, c: Command, signalFd: int, listenerFd: int)
    requires LedgerOk(l, signalFd, listenerFd) && s in l.barely && !l.control.state.SimulationFinished?
    requires HandleCommand(l.control, c, s).Handled?
    ensures s in l.fds
    ensures var o := HandleCommand(l.control, c, s); LedgerOk(Settle(l, s, c, o.next, o.dropClient), signalFd, listenerFd)
  {
    HandleCommandKeepsInv(l.control, c, s);
    CommandEffect(l.control, c, s);
    BarelyIsOpen(l, s);
    hide LedgerOk, ControlInv, HandleCommand;
    var o := HandleCommand(l.control, c, s);
    if o.dropClient {
      DropKeepsOk(l, s, c, o.next, signalFd, listenerFd);
    } else {
      ConnectKeepsOk(l, s, c, o.next, signalFd, listenerFd);
    }
  }

  lemma BarelyIsOpen(l: Ledger, s: SocketId)
    requires Partition(l) && s in l.barely
    ensures At(l, s, Barely) && s in l.fds
  {
  }

  lemma SettlePartition(l: Ledger, s: SocketId, c: Command, next: Control, drop: bool)
    requires Partition(l) && s in l.barely && s in l.fds
    ensures Partition(Settle(l, s, c, next, drop))
  {
    assert At(l, s, Barely);
    AddAtEnd(l.dropped, s);
  }

  lemma SettleOwned(l: Ledger, s: SocketId, c: Command, next: Control, drop: bool)
    requires Partition(l) && s in l.barely && s in l.fds
    ensures var l1 := Settle(l, s, c, next, drop);
            forall t :: (t in l1.barely || t in l1.dropped) <==> (t in l.barely || t in l.dropped) && (drop || t != s)
  {
    assert At(l, s, Barely);
  }

  lemma DropMessages(l: Ledger, s: SocketId, c: Command, next: Control)
    requires Messages(l) && s in l.fds && DropEffect(l.control, next) && !l.control.state.SimulationFinished?
    ensures Messages(Settle(l, s, c, next, true))
  {
  }

  lemma DropLinks(l: Ledger, s: SocketId, c: Command, next: Control)
    requires Partition(l) && Links(l) && s in l.barely && s in l.fds && DropEffect(l.control, next)
    ensures Links(Settle(l, s, c, next, true))
  {
    assert At(l, s, Barely);
    forall t <- l.actorOf
      ensures l.actorOf[t] in next.connections && next.connections[l.actorOf[t]].socket == Some(t)
    {
      var k := l.actorOf[t];
      assert k in l.control.connections && l.control.connections[k].socket == Some(t);
      assert k in next.connections;
      assert next.connections[k].socket == l.control.connections[k].socket;
    }
  }

  lemma ConnectDescriptors(l: Ledger, s: SocketId, c: Command, next: Control, signalFd: int, listenerFd: int)
    requires Partition(l) && Descriptors(l, signalFd, listenerFd) && s in l.barely && s in l.fds
    ensures Descriptors(Settle(l, s, c, next, false), signalFd, listenerFd)
  {
    SettleOwned(l, s, c, next, false);
    hide Partition;
    Unwatch(l, Settle(l, s, c, next, false), s);
  }

  lemma ConnectMessages(l: Ledger, s: SocketId, c: Command, next: Control)
    requires Partition(l) && Messages(l) && s in l.barely && s in l.fds
    requires c.Connect? && ConnectEffect(l.control, next, c.id, s) && !l.control.state.SimulationFinished?
    ensures Messages(Settle(l, s, c, next, false))
  {
  }

  lemma ConnectLinks(l: Ledger, s: SocketId, c: Command, next: Control)
    requires Partition(l) && Links(l) && s in l.barely && s in l.fds
    requires c.Connect? && ConnectEffect(l.control, next, c.id, s)
    ensures Links(Settle(l, s, c, next, false))
  {
    assert At(l, s, Barely);
  }

  ghost predicate CanReceive(l: Ledger) {
    l.queue != [] && !l.control.state.SimulationFinished? && forall m <- l.queue :: m.ActorQuit? ==> m.socket in l.fds
  }

  lemma TailOf(queue: seq<InterthreadMessage>)
    requires queue != []
    ensures forall m :: m in queue <==> m == queue[0] || m in queue[1..]
    ensures HasAbort(queue) && !queue[0].Aborted? ==> HasAbort(queue[1..])
  {
    assert queue == [queue[0]] + queue[1..];
    if HasAbort(queue) && !queue[0].Aborted? {
      var i :| 0 <= i < |queue| && queue[i].Aborted?;
      assert queue[1..][i - 1].Aborted?;
    }
  }

  lemma ReturnPartition(l: Ledger)
    requires Partition(l) && Messages(l) && CanReceive(l) && l.queue[0].ActorQuit?
    ensures Partition(Receive(l))
    ensures var l1 := Receive(l);
            forall t :: (t in l1.barely || t in l1.dropped) <==> (t in l.barely || t in l.dropped || t == l.queue[0].socket)
  {
    TailOf(l.queue);
    var s := l.queue[0].socket;
    assert At(l, s, Returning);
    assert l.queue[0] !in l.queue[1..];
    AddAtEnd(l.dropped, s);
  }

  lemma ReturnLinks(l: Ledger)
    requires Links(l) && CanReceive(l) && l.queue[0].ActorQuit? && At(l, l.queue[0].socket, Returning)
    ensures Links(Receive(l))
  {
  }

  lemma ReturnMessages(l: Ledger)
    requires Messages(l) && CanReceive(l) && l.queue[0].ActorQuit? && At(l, l.queue[0].socket, Returning)
    ensures Messages(Receive(l))
  {
    TailOf(l.queue);
  }

  lemma ExpectMessages(l: Ledger)
    requires ControlInv(l.control) && Messages(l) && CanReceive(l) && l.queue[0].ActorCreate?
    ensures ControlInv(Receive(l).control) && Messages(Receive(l))
  {
    TailOf(l.queue);
    HandleCreateKeepsInv(l.control, l.queue[0].id, l.queue[0].connectAck);
  }

  lemma ExpectLinks(l: Ledger)
    requires Links(l) && Messages(l) && CanReceive(l) && l.queue[0].ActorCreate?
    ensures Links(Receive(l))
  {
    assert l.queue[0].id !in l.control.connections;
  }

  lemma EndMessages(l: Ledger)
    requires Messages(l) && CanReceive(l) && (l.queue[0].Finished? || l.queue[0].Aborted?)
    ensures Messages(Receive(l))
  {
    TailOf(l.queue);
    if l.queue[0].Finished? {
      assert l.queue == [Finished];
    }
  }

  lemma ShorterQueue(l: Ledger, l1: Ledger)
    requires Partition(l) && l.queue != [] && !l.queue[0].ActorQuit? && l1.queue == l.queue[1..]
    requires l1.barely == l.barely && l1.dropped == l.dropped && l1.fds == l.fds && l1.place == l.place
    ensures Partition(l1) && Watched(l1) == Watched(l)
  {
    TailOf(l.queue);
    StillWatched(l, l1);
    forall s
      ensures ActorQuit(s) in l1.queue <==> At(l1, s, Returning)
    {
      assert ActorQuit(s) in l.queue <==> At(l, s, Returning);
    }
  }

  lemma ReturningIsOpen(l: Ledger)
    requires Partition(l) && CanReceive(l) && l.queue[0].ActorQuit?
    ensures At(l, l.queue[0].socket, Returning) && l.queue[0].socket in l.fds
  {
    assert l.queue[0] in l.queue;
  }

  lemma ReturnDescriptors(l: Ledger, signalFd: int, listenerFd: int)
    requires Partition(l) && Messages(l) && Descriptors(l, signalFd, listenerFd) && CanReceive(l) && l.queue[0].ActorQuit?
    requires l.queue[0].socket in l.fds
    ensures Descriptors(Receive(l), signalFd, listenerFd)
  {
    ReturnPartition(l);
    hide Partition, Messages;
    NowWatched(l, Receive(l), l.queue[0].socket);
  }

  /** Messages that are not about a socket change the control part only. */
  lemma ReceiveMovesNothing(l: Ledger) returns (control: Control, returnCode: int)
    requires CanReceive(l) && !l.queue[0].ActorQuit?
    ensures Receive(l) == l.(queue := l.queue[1..], control := control, returnCode := returnCode)
  {
    hide HandleCreate;
    control, returnCode := Receive(l).control, Receive(l).returnCode;
    match l.queue[0] {
      case Finished =>
      case Aborted(_) =>
      case ActorCreate(_, _, _) =>
      case _ =>
    }
  }

  lemma EndControl(l: Ledger)
    requires ControlInv(l.control) && Messages(l) && CanReceive(l) && (l.queue[0].Finished? || l.queue[0].Aborted?)
    ensures ControlInv(Receive(l).control)
  {
  }

  lemma EndLinks(l: Ledger)
    requires Links(l) && CanReceive(l) && (l.queue[0].Finished? || l.queue[0].Aborted?)
    ensures Links(Receive(l))
  {
  }

  lemma ReturnKeepsOk(l: Ledger, signalFd: int, listenerFd: int)
    requires LedgerOk(l, signalFd, listenerFd) && CanReceive(l) && l.queue[0].ActorQuit?
    ensures LedgerOk(Receive(l), signalFd, listenerFd)
  {
    hide ControlInv, Partition, Descriptors, Links, Messages;
    ReturningIsOpen(l);
    ReturnPartition(l);
    ReturnLinks(l);
    ReturnMessages(l);
    ReturnDescriptors(l, signalFd, listenerFd);
  }

  lemma ExpectKeepsOk(l: Ledger, signalFd: int, listenerFd: int)
    requires LedgerOk(l, signalFd, listenerFd) && CanReceive(l) && l.queue[0].ActorCreate?
    ensures LedgerOk(Receive(l), signalFd, listenerFd)
  {
    var control, returnCode := ReceiveMovesNothing(l);
    hide ControlInv, Partition, Descriptors, Links, Messages, Receive;
    ShorterQueue(l, Receive(l));
    SameDescriptors(l, Receive(l), signalFd, listenerFd);
    ExpectLinks(l);
    ExpectMessages(l);
  }

  lemma EndKeepsOk(l: Ledger, signalFd: int, listenerFd: int)
    requires LedgerOk(l, signalFd, listenerFd) && CanReceive(l) && (l.queue[0].Finished? || l.queue[0].Aborted?)
    ensures LedgerOk(Receive(l), signalFd, listenerFd)
  {
    var control, returnCode := ReceiveMovesNothing(l);
    hide ControlInv, Partition, Descriptors, Links, Messages, Receive;
    ShorterQueue(l, Receive(l));
    SameDescriptors(l, Receive(l), signalFd, listenerFd);
    EndControl(l);
    EndLinks(l);
    EndMessages(l);
  }

  /** One interthread message. A new pid is never in the table yet; the end of the simulation comes
      after every socket was handed back. */
  lemma ReceiveKeepsOk(l: Ledger, signalFd: int, listenerFd: int)
    requires LedgerOk(l, signalFd, listenerFd) && l.queue != [] && !l.control.state.SimulationFinished?
    ensures CanReceive(l)
    ensures l.queue[0].ActorCreate? ==> l.queue[0].id !in l.control.connections
    ensures LedgerOk(Receive(l), signalFd, listenerFd)
  {
    QuitsExist(l);
    match l.queue[0]
    case ActorQuit(_) => ReturnKeepsOk(l, signalFd, listenerFd);
    case ActorCreate(_, _, _) => ExpectKeepsOk(l, signalFd, listenerFd);
    case _ => EndKeepsOk(l, signalFd, listenerFd);
  }

  lemma QuitsExist(l: Ledger)
    requires Partition(l)
    ensures forall m <- l.queue :: m.ActorQuit? ==> m.socket in l.fds
  {
    forall m <- l.queue | m.ActorQuit?
      ensures m.socket in l.fds
    {
      assert ActorQuit(m.socket) in l.queue;
      assert At(l, m.socket, Returning);
    }
  }

  lemma ReceivedPlaces(l: Ledger)
    requires Partition(l) && l.queue != []
    ensures l.queue[0].ActorQuit? ==> l.queue[0].socket in l.fds && l.queue[0].socket in l.place
  {
    if l.queue[0].ActorQuit? {
      assert At(l, l.queue[0].socket, Returning);
    }
  }

  lemma OwnSocketsAreOpen(l: Ledger)
    requires Partition(l)
    ensures l.barely.Keys <= l.fds.Keys && Distinct(l.dropped)
    ensures forall s <- l.dropped :: s in l.fds && s !in l.barely
  {
    assert forall s <- l.barely :: At(l, s, Barely);
    assert forall s <- l.dropped :: At(l, s, Dropped);
  }

  /** The SimGrid side has the socket, or has left it open. */
  predicate OnSimGridSide(l: Ledger, s: SocketId) {
    At(l, s, InSimulation) || At(l, s, Returning) || At(l, s, Abandoned)
  }

  /** When the command thread has seen a normal end, the SimGrid side has handed every socket back. */
  lemma CleanEnd(l: Ledger)
    requires Partition(l) && Messages(l) && Victims(l)
    ensures forall s :: s in l.fds && s !in l.barely && s !in l.dropped <==> OnSimGridSide(l, s)
    ensures l.control.state.SimulationFinished? && l.returnCode == 0 ==>
              forall s <- l.place :: l.place[s].Deleted? || s in l.barely || s in l.dropped
  {
    forall s
      ensures s in l.fds && s !in l.barely && s !in l.dropped <==> OnSimGridSide(l, s)
    {
      assert (s in l.barely <==> At(l, s, Barely)) && (s in l.dropped <==> At(l, s, Dropped));
    }
    if l.control.state.SimulationFinished? && l.returnCode == 0 {
      forall s <- l.place
        ensures l.place[s].Deleted? || s in l.barely || s in l.dropped
      {
        assert ActorQuit(s) in l.queue <==> At(l, s, Returning);
        assert At(l, s, l.place[s]);
      }
    }
  }
}
