/** Whole runs of the server and the SimGrid thread, as sequences of ledger steps. */
module ServerRuns {
  import opened Wrappers
  import opened Wire
  import opened Commands
  import opened Ledgers
  import InitialActors

  datatype Action =
    | Accepts(socket: SocketId, fd: int)
    | Assembles(socket: SocketId, bytes: seq<byte>)
    | Obeys(socket: SocketId, command: Command)
    | Deletes(index: nat)
    | Receives
    | Quits(socket: SocketId)
    | Creates(id: int, canConnectAck: QueueId, connectAck: QueueId)
    | Aborts(reason: string, victim: Option<SocketId>, lost: bool)
    | Returns

  predicate EngineRuns(l: Ledger) {
    !l.engineDone && l.control.starts != []
  }

  /** When an action can happen. The kernel gives a descriptor that is not open; a refused command is a
      crash, not a step; SimGrid numbers its actors afresh and returns when all have left, unless an
      actor has failed. Nothing happens after the end. */
  ghost predicate Possible(l: Ledger, a: Action, signalFd: int, listenerFd: int) {
    && !l.control.state.SimulationFinished?
    && match a
       case Accepts(s, fd) => s !in l.place && fd !in {signalFd, listenerFd} && forall t <- l.fds :: l.fds[t] != fd
       case Assembles(s, bytes) => s in l.barely && Incomplete(bytes)
       case Obeys(s, c) => s in l.barely && s in l.fds && HandleCommand(l.control, c, s).Handled?
       case Deletes(i) => i < |l.dropped| && l.dropped[i] in l.fds
       case Receives => CanReceive(l)
       case Quits(s) => At(l, s, InSimulation) && EngineRuns(l)
       case Creates(id, _, _) =>
         EngineRuns(l) && id !in l.control.connections && forall m <- l.queue :: m.ActorCreate? ==> m.id != id
       case Aborts(_, victim, _) => EngineRuns(l) && CanFail(l, victim)
       case Returns => EngineRuns(l) && (l.aborted || EngineIdle(l))
  }

  ghost function Perform(l: Ledger, a: Action, signalFd: int, listenerFd: int): Ledger
    requires Possible(l, a, signalFd, listenerFd)
  {
    match a
    case Accepts(s, fd) => Accept(l, s, fd)
    case Assembles(s, bytes) => Assemble(l, s, bytes)
    case Obeys(s, c) => var o := HandleCommand(l.control, c, s); Settle(l, s, c, o.next, o.dropClient)
    case Deletes(i) => Delete(l, i)
    case Receives => Receive(l)
    case Quits(s) => Quit(l, s)
    case Creates(id, canConnectAck, connectAck) => Create(l, id, canConnectAck, connectAck)
    case Aborts(reason, victim, lost) => Abort(l, reason, victim, lost)
    case Returns => EngineReturns(l)
  }

  ghost predicate IsRun(l: Ledger, run: seq<Action>, signalFd: int, listenerFd: int)
    decreases |run|
  {
    run == [] ||
    (Possible(l, run[0], signalFd, listenerFd) &&
     IsRun(Perform(l, run[0], signalFd, listenerFd), run[1..], signalFd, listenerFd))
  }

  ghost function After(l: Ledger, run: seq<Action>, signalFd: int, listenerFd: int): Ledger
    requires IsRun(l, run, signalFd, listenerFd)
    decreases |run|
  {
    if run == [] then l else After(Perform(l, run[0], signalFd, listenerFd), run[1..], signalFd, listenerFd)
  }

  lemma {:induction false} RunsJoin(l: Ledger, a: seq<Action>, b: seq<Action>, signalFd: int, listenerFd: int)
    requires IsRun(l, a, signalFd, listenerFd) && IsRun(After(l, a, signalFd, listenerFd), b, signalFd, listenerFd)
    ensures IsRun(l, a + b, signalFd, listenerFd)
    ensures After(l, a + b, signalFd, listenerFd) == After(After(l, a, signalFd, listenerFd), b, signalFd, listenerFd)
    decreases |a|
  {
    hide Possible, Perform;
    if a == [] {
      assert a + b == b;
    } else {
      assert (a + b)[1..] == a[1..] + b;
      RunsJoin(Perform(l, a[0], signalFd, listenerFd), a[1..], b, signalFd, listenerFd);
    }
  }

  lemma NoAction(l: Ledger, signalFd: int, listenerFd: int)
    ensures IsRun(l, [], signalFd, listenerFd) && After(l, [], signalFd, listenerFd) == l
  {
  }

  lemma OneAction(l: Ledger, a: Action, signalFd: int, listenerFd: int)
    requires Possible(l, a, signalFd, listenerFd)
    ensures IsRun(l, [a], signalFd, listenerFd) && After(l, [a], signalFd, listenerFd) == Perform(l, a, signalFd, listenerFd)
  {
    hide Possible, Perform;
    assert [a][1..] == [];
  }

  lemma ActionKeepsOk(l: Ledger, a: Action, signalFd: int, listenerFd: int)
    requires LedgerOk(l, signalFd, listenerFd) && Possible(l, a, signalFd, listenerFd)
    ensures LedgerOk(Perform(l, a, signalFd, listenerFd), signalFd, listenerFd)
  {
    match a
    case Accepts(s, fd) => AcceptKeepsOk(l, s, fd, signalFd, listenerFd);
    case Assembles(s, bytes) => AssembleKeepsOk(l, s, bytes, signalFd, listenerFd);
    case Obeys(s, c) => SettleKeepsOk(l, s, c, signalFd, listenerFd);
    case Deletes(i) => DeleteKeepsOk(l, i, signalFd, listenerFd);
    case Receives => ReceiveKeepsOk(l, signalFd, listenerFd);
    case Quits(s) => QuitKeepsOk(l, s, signalFd, listenerFd);
    case Creates(id, a, b) => CreateKeepsOk(l, id, a, b, signalFd, listenerFd);
    case Aborts(reason, victim, lost) => AbortKeepsOk(l, reason, victim, lost, signalFd, listenerFd);
    case Returns => EngineReturnsKeepsOk(l, signalFd, listenerFd);
  }

  lemma {:induction false} RunKeepsOk(l: Ledger, run: seq<Action>, signalFd: int, listenerFd: int)
    requires LedgerOk(l, signalFd, listenerFd) && IsRun(l, run, signalFd, listenerFd)
    ensures LedgerOk(After(l, run, signalFd, listenerFd), signalFd, listenerFd)
    decreases |run|
  {
    if run != [] {
      ActionKeepsOk(l, run[0], signalFd, listenerFd);
      RunKeepsOk(Perform(l, run[0], signalFd, listenerFd), run[1..], signalFd, listenerFd);
    }
  }

  predicate IsClosed(p: Place) {
    p.Deleted? || p.Severed?
  }

  /** A socket stays known, and one that was deleted or closed stays so. */
  lemma {:induction false} ClosedForGood(l: Ledger, run: seq<Action>, s: SocketId, signalFd: int, listenerFd: int)
    requires LedgerOk(l, signalFd, listenerFd) && IsRun(l, run, signalFd, listenerFd) && s in l.place
    ensures s in After(l, run, signalFd, listenerFd).place
    ensures IsClosed(l.place[s]) ==> After(l, run, signalFd, listenerFd).place[s] == l.place[s]
    decreases |run|
  {
    if run != [] {
      ActionKeepsOk(l, run[0], signalFd, listenerFd);
      ActionKeepsClosed(l, run[0], s, signalFd, listenerFd);
      hide Possible, Perform, LedgerOk;
      ClosedForGood(Perform(l, run[0], signalFd, listenerFd), run[1..], s, signalFd, listenerFd);
    }
  }

  /** The socket that an action moves is open. */
  lemma MovedIsOpen(l: Ledger, a: Action, signalFd: int, listenerFd: int)
    requires Partition(l) && Possible(l, a, signalFd, listenerFd)
    ensures a.Obeys? ==> At(l, a.socket, Barely)
    ensures a.Deletes? ==> At(l, l.dropped[a.index], Dropped)
    ensures a.Receives? && l.queue[0].ActorQuit? ==> At(l, l.queue[0].socket, Returning)
  {
    if a.Deletes? {
      assert l.dropped[a.index] in l.dropped;
    } else if a.Receives? {
      assert l.queue[0] in l.queue;
    }
  }

  lemma ActionKeepsClosed(l: Ledger, a: Action, s: SocketId, signalFd: int, listenerFd: int)
    requires Partition(l) && Possible(l, a, signalFd, listenerFd) && s in l.place
    ensures s in Perform(l, a, signalFd, listenerFd).place
    ensures IsClosed(l.place[s]) ==> Perform(l, a, signalFd, listenerFd).place[s] == l.place[s]
  {
    MovedIsOpen(l, a, signalFd, listenerFd);
    hide Partition, HandleCommand;
    if a.Receives? && !l.queue[0].ActorQuit? {
      var control, returnCode := ReceiveMovesNothing(l);
    } else {
      OpenActionKeepsClosed(l, a, s, signalFd, listenerFd);
    }
  }

  lemma OpenActionKeepsClosed(l: Ledger, a: Action, s: SocketId, signalFd: int, listenerFd: int)
    requires Possible(l, a, signalFd, listenerFd) && s in l.place
    requires a.Obeys? ==> At(l, a.socket, Barely)
    requires a.Deletes? ==> At(l, l.dropped[a.index], Dropped)
    requires a.Receives? ==> l.queue[0].ActorQuit? && At(l, l.queue[0].socket, Returning)
    ensures s in Perform(l, a, signalFd, listenerFd).place
    ensures IsClosed(l.place[s]) ==> Perform(l, a, signalFd, listenerFd).place[s] == l.place[s]
  {
    hide HandleCommand;
  }

  /** How many of the containers of the program hold a socket: the barely connected, the dropped, the
      quit messages in flight, and the actors still in the simulation. */
  ghost function Holders(l: Ledger, s: SocketId): nat {
    (if s in l.barely then 1 else 0) + |Occurrences(l.dropped, s)| + |QuitsOf(l.queue, s)| +
    (if HeldByActor(l, s) then 1 else 0)
  }

  function Occurrences(q: seq<SocketId>, s: SocketId): set<nat> {
    set i: nat | i < |q| && q[i] == s
  }

  function QuitsOf(q: seq<InterthreadMessage>, s: SocketId): set<nat> {
    set i: nat | i < |q| && q[i] == ActorQuit(s)
  }

  /** An actor of the table has the socket and has not handed it back, whether it has failed or not. */
  ghost predicate HeldByActor(l: Ledger, s: SocketId) {
    && (exists k :: k in l.control.connections && l.control.connections[k].socket == Some(s))
    && (At(l, s, InSimulation) || At(l, s, Abandoned))
  }

  /** Conservation: in every state of every run, an open socket has exactly one holder, and one
      that was deleted or closed has none; the selector watches exactly the signals, the listener and the sockets that the
      command thread holds; no socket has two actors. */
  lemma SocketsAreConserved(run: seq<Action>, s: SocketId, signalFd: int, listenerFd: int)
    requires signalFd != listenerFd && IsRun(InitialLedger(signalFd, listenerFd), run, signalFd, listenerFd)
    ensures var l := After(InitialLedger(signalFd, listenerFd), run, signalFd, listenerFd);
            && Holders(l, s) == (if s in l.fds then 1 else 0)
            && (s in l.fds <==> s in l.place && !l.place[s].Deleted? && !l.place[s].Severed?)
            && l.registered == {signalFd, listenerFd} + Watched(l)
            && forall j, k | j in l.control.connections && k in l.control.connections && j != k ::
                 l.control.connections[j].socket == Some(s) ==> l.control.connections[k].socket != Some(s)
  {
    InitialLedgerOk(signalFd, listenerFd);
    RunKeepsOk(InitialLedger(signalFd, listenerFd), run, signalFd, listenerFd);
    OneHolder(After(InitialLedger(signalFd, listenerFd), run, signalFd, listenerFd), s);
  }

  lemma OneHolder(l: Ledger, s: SocketId)
    requires Partition(l) && Links(l) && Messages(l)
    ensures Holders(l, s) == if s in l.fds then 1 else 0
  {
    OneOccurrence(l.dropped, s);
    OneQuit(l.queue, s);
    assert s in l.barely <==> At(l, s, Barely);
    assert s in l.dropped <==> At(l, s, Dropped);
    assert ActorQuit(s) in l.queue <==> At(l, s, Returning);
    assert s in l.fds <==> s in l.place && !l.place[s].Deleted? && !l.place[s].Severed?;
    HeldIsInSimulation(l, s);
  }

  lemma HeldIsInSimulation(l: Ledger, s: SocketId)
    requires Links(l)
    ensures HeldByActor(l, s) <==> At(l, s, InSimulation) || At(l, s, Abandoned)
  {
    if At(l, s, InSimulation) || At(l, s, Abandoned) {
      var k := l.actorOf[s];
      assert k in l.control.connections && l.control.connections[k].socket == Some(s);
    }
  }

  lemma OneOccurrence(q: seq<SocketId>, s: SocketId)
    requires Distinct(q)
    ensures |Occurrences(q, s)| == if s in q then 1 else 0
  {
    if s in q {
      var i :| 0 <= i < |q| && q[i] == s;
      assert Occurrences(q, s) == {i};
    } else {
      assert Occurrences(q, s) == {};
    }
  }

  lemma OneQuit(q: seq<InterthreadMessage>, s: SocketId)
    requires forall i, j | 0 <= i < j < |q| && q[i].ActorQuit? :: q[i] != q[j]
    ensures |QuitsOf(q, s)| == if ActorQuit(s) in q then 1 else 0
  {
    if ActorQuit(s) in q {
      var i :| 0 <= i < |q| && q[i] == ActorQuit(s);
      assert QuitsOf(q, s) == {i};
    } else {
      assert QuitsOf(q, s) == {};
    }
  }

  /** Nothing is lost at a normal end: every socket ever accepted is deleted already or is one of those
      that `close_open_sockets` deletes, no message is left, and every actor of the table was connected. */
  lemma NothingLostAtTheEnd(run: seq<Action>, signalFd: int, listenerFd: int)
    requires signalFd != listenerFd && IsRun(InitialLedger(signalFd, listenerFd), run, signalFd, listenerFd)
    ensures var l := After(InitialLedger(signalFd, listenerFd), run, signalFd, listenerFd);
            l.control.state.SimulationFinished? && l.returnCode == 0 ==>
              && l.queue == []
              && (forall s <- l.place :: l.place[s].Deleted? || s in l.barely || s in l.dropped)
              && (forall k <- l.control.connections :: l.control.connections[k].socket.Some?)
  {
    InitialLedgerOk(signalFd, listenerFd);
    RunKeepsOk(InitialLedger(signalFd, listenerFd), run, signalFd, listenerFd);
    var l := After(InitialLedger(signalFd, listenerFd), run, signalFd, listenerFd);
    CleanEnd(l);
    forall s | s in l.place && !l.place[s].Deleted? && l.control.state.SimulationFinished? && l.returnCode == 0
      ensures s in l.barely || s in l.dropped
    {
      assert At(l, s, l.place[s]);
    }
  }

  // ----- the tables given to the simulation

  /** In every run, every table that the command machine has given to the simulation is keyed by its ids,
      which are exactly 2 to n + 1, and every entry has its socket. */
  lemma EveryStartIsComplete(run: seq<Action>, signalFd: int, listenerFd: int, t: Table)
    requires signalFd != listenerFd && IsRun(InitialLedger(signalFd, listenerFd), run, signalFd, listenerFd)
    requires t in After(InitialLedger(signalFd, listenerFd), run, signalFd, listenerFd).control.starts
    ensures Contiguous(t) && InitialActors.IdsAreInitial(t)
    ensures forall id <- t :: t[id].actorId == id && t[id].socket.Some?
    ensures After(InitialLedger(signalFd, listenerFd), run, signalFd, listenerFd).control.starts == [t]
  {
    ReachedIsOk(run, signalFd, listenerFd);
    hide LedgerOk, IsRun, After, ControlInv;
    StartIsComplete(After(InitialLedger(signalFd, listenerFd), run, signalFd, listenerFd).control, t);
    InitialActors.ContiguousTableIsInitial(t);
  }

  lemma ReachedIsOk(run: seq<Action>, signalFd: int, listenerFd: int)
    requires signalFd != listenerFd && IsRun(InitialLedger(signalFd, listenerFd), run, signalFd, listenerFd)
    ensures LedgerOk(After(InitialLedger(signalFd, listenerFd), run, signalFd, listenerFd), signalFd, listenerFd)
    ensures ControlInv(After(InitialLedger(signalFd, listenerFd), run, signalFd, listenerFd).control)
  {
    InitialLedgerOk(signalFd, listenerFd);
    RunKeepsOk(InitialLedger(signalFd, listenerFd), run, signalFd, listenerFd);
    hide ControlInv, Partition, Descriptors, Links, Messages, Victims, IsRun, After;
  }

  lemma StartIsComplete(control: Control, t: Table)
    requires ControlInv(control) && t in control.starts
    ensures control.starts == [t] && Contiguous(t)
    ensures forall id <- t :: t[id].actorId == id && t[id].socket.Some?
  {
  }

  /** So the simulation starts: the order check accepts the table, whatever the iteration order of the hash
      map, and each initial actor gets the pid under which it was registered, unless a host is unknown. */
  method StartHandedTable(ghost run: seq<Action>, ghost signalFd: int, ghost listenerFd: int, t: Table, order: seq<int>,
                          hostExists: string -> bool)
    returns (r: InitialActors.Launched)
    requires signalFd != listenerFd && IsRun(InitialLedger(signalFd, listenerFd), run, signalFd, listenerFd)
    requires t in After(InitialLedger(signalFd, listenerFd), run, signalFd, listenerFd).control.starts
    requires InitialActors.IsIteration(t, order)
    ensures r.Aborted? <==> exists id :: id in t && !hostExists(t[id].hostName)
    ensures r.Spawned? ==>
              InitialActors.SpawnedAsRegistered(t, r.actors) && forall a <- r.actors :: a.connection.socket.Some?
  {
    EveryStartIsComplete(run, signalFd, listenerFd, t);
    r := InitialActors.StartSimulation(t, order, hostExists);
  }

  // ----- a run that leaves a socket open

  ghost predicate Reaches(run: seq<Action>, l: Ledger, signalFd: int, listenerFd: int) {
    && IsRun(InitialLedger(signalFd, listenerFd), run, signalFd, listenerFd)
    && After(InitialLedger(signalFd, listenerFd), run, signalFd, listenerFd) == l
  }

  lemma OneMoreAction(l: Ledger, run: seq<Action>, a: Action, signalFd: int, listenerFd: int)
    requires IsRun(l, run, signalFd, listenerFd) && Possible(After(l, run, signalFd, listenerFd), a, signalFd, listenerFd)
    ensures IsRun(l, run + [a], signalFd, listenerFd)
    ensures After(l, run + [a], signalFd, listenerFd)
         == Perform(After(l, run, signalFd, listenerFd), a, signalFd, listenerFd)
  {
    hide Possible, Perform;
    OneAction(After(l, run, signalFd, listenerFd), a, signalFd, listenerFd);
    RunsJoin(l, run, [a], signalFd, listenerFd);
  }

  /** A client connects, and its command is obeyed. */
  lemma NewClient(run: seq<Action>, l: Ledger, s: SocketId, fd: int, c: Command, signalFd: int, listenerFd: int)
    returns (next: seq<Action>, l2: Ledger)
    requires Reaches(run, l, signalFd, listenerFd) && !l.control.state.SimulationFinished? && s !in l.place
    requires fd !in {signalFd, listenerFd} && forall t <- l.fds :: l.fds[t] != fd
    requires HandleCommand(l.control, c, s).Handled?
    ensures Reaches(next, l2, signalFd, listenerFd)
    ensures var o := HandleCommand(l.control, c, s);
            && l2.control == o.next && l2.fds == l.fds[s := fd]
            && l2.place == l.place[s := if o.dropClient then Dropped else InSimulation]
  {
    hide IsRun, After, HandleCommand;
    OneMoreAction(InitialLedger(signalFd, listenerFd), run, Accepts(s, fd), signalFd, listenerFd);
    var l1 := Accept(l, s, fd);
    OneMoreAction(InitialLedger(signalFd, listenerFd), run + [Accepts(s, fd)], Obeys(s, c), signalFd, listenerFd);
    next := run + [Accepts(s, fd)] + [Obeys(s, c)];
    l2 := Perform(l1, Obeys(s, c), signalFd, listenerFd);
    assert l.place[s := Barely][s := Dropped] == l.place[s := Dropped];
    assert l.place[s := Barely][s := InSimulation] == l.place[s := InSimulation];
  }

  /** The commands of the run below, one after the other. */
  lemma FourCommands() returns (c1: Control, c2: Control, c3: Control, c4: Control)
    ensures HandleCommand(INITIAL_CONTROL, AddActor("actor", "host"), 0) == Handled(c1, CommandAck(true, NewActor(2)), true)
    ensures HandleCommand(c1, Connect(2), 1) == Handled(c2, CommandAck(true, NoInfo), false)
    ensures HandleCommand(c2, Start, 2) == Handled(c3, CommandAck(true, NoInfo), true)
    ensures HandleCommand(c3, Kill("stop"), 3) == Handled(c4, CommandAck(true, NoInfo), true)
    ensures c4.state == ServerState.Killed && |c4.starts| == 1
    ensures !c1.state.SimulationFinished? && !c2.state.SimulationFinished? && !c3.state.SimulationFinished?
    ensures c2.starts == [] && |c3.starts| == 1 && |c3.connections| == 1
  {
    var entry := ActorConnection("actor", "host", 2, None, None);
    c1 := INITIAL_CONTROL.(connections := map[2 := entry]);
    c2 := c1.(connections := map[2 := entry.(socket := Some(1))], nbConnected := 1);
    assert c1.connections[2 := entry.(socket := Some(1))] == c2.connections;
    c3 := Launch(c2);
    c4 := c3.(state := ServerState.Killed);
    assert |INITIAL_CONTROL.connections| == 0 && |c2.connections| == 1;
  }

  /** A client registers one actor, and its client connects. */
  lemma OneActorConnects(c1: Control, c2: Control, fd0: int, fd1: int, signalFd: int, listenerFd: int)
    returns (run: seq<Action>, l: Ledger)
    requires fd0 !in {signalFd, listenerFd} && fd1 !in {signalFd, listenerFd} && fd0 != fd1
    requires HandleCommand(INITIAL_CONTROL, AddActor("actor", "host"), 0) == Handled(c1, CommandAck(true, NewActor(2)), true)
    requires HandleCommand(c1, Connect(2), 1) == Handled(c2, CommandAck(true, NoInfo), false)
    requires !c1.state.SimulationFinished?
    ensures Reaches(run, l, signalFd, listenerFd) && l.control == c2
    ensures l.fds == map[0 := fd0, 1 := fd1] && l.place == map[0 := Dropped, 1 := InSimulation]
  {
    var l0 := InitialLedger(signalFd, listenerFd);
    assert Reaches([], l0, signalFd, listenerFd);
    hide Reaches, HandleCommand;
    var run1, l1 := NewClient([], l0, 0, fd0, AddActor("actor", "host"), signalFd, listenerFd);
    run, l := NewClient(run1, l1, 1, fd1, Connect(2), signalFd, listenerFd);
  }

  ghost predicate AreFree(fds: seq<int>, signalFd: int, listenerFd: int) {
    && (forall i | 0 <= i < |fds| :: fds[i] !in {signalFd, listenerFd})
    && (forall i, j | 0 <= i < j < |fds| :: fds[i] != fds[j])
  }

  /** Then the simulation starts and the server is killed: the loop ends and the socket of the actor is open,
      out of reach of the final clean-up. */
  lemma KillLeavesActorOpen(signalFd: int, listenerFd: int, fds: seq<int>) returns (run: seq<Action>, l: Ledger)
    requires |fds| == 4 && signalFd != listenerFd && AreFree(fds, signalFd, listenerFd)
    ensures Reaches(run, l, signalFd, listenerFd)
    ensures l.control.state.Killed? && |l.control.starts| == 1
    ensures 1 in l.fds && OnSimGridSide(l, 1) && 1 !in l.barely && 1 !in l.dropped
  {
    var c1, c2, c3, c4 := FourCommands();
    assert fds[0] != fds[1] && fds[0] != fds[2] && fds[1] != fds[2] && fds[0] != fds[3] && fds[1] != fds[3] && fds[2] != fds[3];
    hide Reaches, HandleCommand, LedgerOk, Launch, Partition, OnSimGridSide, AreFree;
    var run2, l2 := OneActorConnects(c1, c2, fds[0], fds[1], signalFd, listenerFd);
    var run3, l3 := NewClient(run2, l2, 2, fds[2], Start, signalFd, listenerFd);
    run, l := NewClient(run3, l3, 3, fds[3], Kill("stop"), signalFd, listenerFd);
    OwnSocketsOfRun(run, l, 1, signalFd, listenerFd);
  }

  lemma OwnSocketsOfRun(run: seq<Action>, l: Ledger, s: SocketId, signalFd: int, listenerFd: int)
    requires signalFd != listenerFd && Reaches(run, l, signalFd, listenerFd) && At(l, s, InSimulation)
    ensures s in l.fds && s !in l.barely && s !in l.dropped && OnSimGridSide(l, s)
  {
    ReachedIsOk(run, signalFd, listenerFd);
    OwnSockets(l, s);
  }

  lemma OwnSockets(l: Ledger, s: SocketId)
    requires Partition(l) && At(l, s, InSimulation)
    ensures s in l.fds && s !in l.barely && s !in l.dropped
  {
    assert (s in l.barely <==> At(l, s, Barely)) && (s in l.dropped <==> At(l, s, Dropped));
  }
}
