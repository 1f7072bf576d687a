/** The creation protocol against the server: what the command thread does in a run of the protocol is a
    run of the server. The guards that a run of the server puts on the SimGrid thread, new pids and an
    engine that returns when nobody is left, are consequences of the protocol here. */
module CreationProjection {
  import opened Wrappers
  import opened Commands
  import opened Ledgers
  import opened ServerRuns
  import Protocol = CreationProtocol
  import Invariant = CreationInvariant
  import Steps = CreationSteps
  import Examples = CreationRuns

  type World = Protocol.World
  type Pid = Protocol.Pid

  /** The two queues that the message about a creation names, for each actor. */
  type Queues = Pid -> (QueueId, QueueId)

  // ----- the relation

  /** The table has the actors that the protocol knows of, with a socket if their client is connected. */
  ghost predicate TableAgrees(w: World, m: Table) {
    && (forall p :: p in m <==> p in w.actors && !w.actors[p].entry.Unknown?)
    && (forall p <- m :: m[p].socket.Some? <==> w.actors[p].entry.Linked?)
  }

  /** A socket is in the simulation until its actor is done. */
  ghost predicate PlacesAgree(w: World, l: Ledger) {
    var m := l.control.connections;
    forall p | p in m && m[p].socket.Some? && p in w.actors ::
      At(l, m[p].socket.value, InSimulation) <==> !w.actors[p].sim.Done?
  }

  ghost predicate Matches(m: Protocol.CommandMessage, i: InterthreadMessage, table: Table, queues: Queues) {
    match m
    case ActorCreate(c) => i == ActorCreate(c, queues(c).0, queues(c).1)
    case ActorQuit(p) => p in table && table[p].socket.Some? && i == ActorQuit(table[p].socket.value)
    case SimulationFinished => i.Finished?
  }

  ghost predicate QueueAgrees(w: World, l: Ledger, queues: Queues) {
    && |l.queue| == |w.toCommand|
    && forall i | 0 <= i < |l.queue| :: Matches(w.toCommand[i], l.queue[i], l.control.connections, queues)
  }

  ghost predicate PhaseAgrees(w: World, l: Ledger) {
    && l.control.state == (if w.finished then SimulationFinished else SimulationRunning)
    && l.control.starts != [] && l.engineDone == w.maestroDone && !l.aborted && l.returnCode == 0
  }

  /** An actor was told that its client is connected: the message waits in its queue, or it has read it. */
  predicate Told(a: Protocol.Actor) {
    a.connectAck != [] || !(a.sim.Fresh? || a.sim.Yielded? || a.sim.SpinConnect?)
  }

  /** The entry of a created actor has its queue; the actor was told exactly when its socket was pushed there. */
  ghost predicate ToldAgrees(w: World, c: Control, queues: Queues) {
    var m := c.connections;
    forall p | p in w.actors && w.actors[p].dynamic ::
      && (p in m ==> m[p].connectAck == Some(queues(p).1))
      && (Told(w.actors[p]) <==> p in m && m[p].socket.Some? && (queues(p).1, m[p].socket.value) in c.pushed)
  }

  /** `l` is a ledger of the server in the state `w` of the protocol. */
  ghost predicate Projects(w: World, l: Ledger, queues: Queues) {
    && TableAgrees(w, l.control.connections) && PlacesAgree(w, l) && QueueAgrees(w, l, queues) && PhaseAgrees(w, l)
    && ToldAgrees(w, l.control, queues)
  }

  // ----- steps that the command thread does not see

  ghost predicate Quiet(w: World, w': World) {
    && w'.toCommand == w.toCommand && w'.finished == w.finished && w'.maestroDone == w.maestroDone
    && (forall p <- w.actors :: p in w'.actors && w'.actors[p].entry == w.actors[p].entry
                                && (w'.actors[p].sim.Done? <==> w.actors[p].sim.Done?)
                                && w'.actors[p].dynamic == w.actors[p].dynamic
                                && (w.actors[p].dynamic ==> (Told(w'.actors[p]) <==> Told(w.actors[p]))))
    && (forall p <- w'.actors :: p in w.actors || (w'.actors[p].entry.Unknown? && !Told(w'.actors[p])))
  }

  lemma QuietKeeps(w: World, w': World, l: Ledger, queues: Queues)
    requires Projects(w, l, queues) && Quiet(w, w')
    ensures Projects(w', l, queues)
  {
  }

  predicate IsQuiet(w: World, s: Protocol.Step)
    requires Protocol.Enabled(w, s)
  {
    match s
    case Schedule(p) => !w.actors[p].sim.CreateIssued?
    case MaestroFinish => false
    case QuitActor(_) => false
    case CommandPop => false
    case CommandConnect(_) => false
    case _ => true
  }

  lemma ResumeIsQuiet(w: World, p: Pid)
    requires Protocol.CanResume(w, p) && !w.actors[p].sim.CreateIssued?
    ensures Quiet(w, Protocol.Resume(w, p))
  {
    hide Quiet;
    ResumeChanges(w, p);
    ResumeSaysNothing(w, p);
    OneChange(w, Protocol.Resume(w, p), p);
  }

  lemma ResumeChanges(w: World, p: Pid)
    requires Protocol.CanResume(w, p) && !w.actors[p].sim.CreateIssued?
    ensures var w' := Protocol.Resume(w, p);
            && p in w'.actors && w'.actors == w.actors[p := w.actors[p].(sim := w'.actors[p].sim)]
            && (w'.actors[p].sim.Done? <==> w.actors[p].sim.Done?)
            && (w.actors[p].dynamic ==> (Told(w'.actors[p]) <==> Told(w.actors[p])))
  {
    var sim := w.actors[p].sim;
    if !sim.Fresh? && !sim.Yielded? && !sim.Suspended? {
      assert w.actors[p := w.actors[p].(sim := sim)] == w.actors;
    } else if sim.Fresh? {
    }
  }

  lemma ResumeSaysNothing(w: World, p: Pid)
    requires Protocol.CanResume(w, p) && !w.actors[p].sim.CreateIssued?
    ensures var w' := Protocol.Resume(w, p);
            w'.toCommand == w.toCommand && w'.finished == w.finished && w'.maestroDone == w.maestroDone
  {
  }

  lemma OneChange(w: World, w': World, p: Pid)
    requires p in w.actors && w'.actors.Keys == w.actors.Keys
    requires forall q <- w.actors :: q != p ==> w'.actors[q] == w.actors[q]
    requires w'.actors[p].entry == w.actors[p].entry && (w'.actors[p].sim.Done? <==> w.actors[p].sim.Done?)
    requires w'.actors[p].dynamic == w.actors[p].dynamic
    requires w.actors[p].dynamic ==> (Told(w'.actors[p]) <==> Told(w.actors[p]))
    requires w'.toCommand == w.toCommand && w'.finished == w.finished && w'.maestroDone == w.maestroDone
    ensures Quiet(w, w')
  {
  }

  lemma CreateIsQuiet(w: World, p: Pid)
    requires Invariant.Scheduling(w) && Protocol.InSim(w, p, Protocol.Handling(Protocol.Create))
    ensures Quiet(w, Protocol.CreateActor(w, p))
  {
    forall q <- w.actors
      ensures q != w.nextPid
    {
      assert Invariant.ScheduledAt(w, q);
    }
  }

  lemma FinishCreateIsQuiet(w: World, p: Pid)
    requires Protocol.CanFinishCreate(w, p)
    ensures Quiet(w, Protocol.FinishCreate(w, p))
  {
  }

  lemma TwoClientsAreQuiet(w: World, p: Pid, threaded: bool)
    ensures Protocol.CanLaunch(w, p) ==> Quiet(w, Protocol.LaunchChild(w, p, threaded))
    ensures Protocol.CanEndWait(w, p) ==> Quiet(w, Protocol.EndWait(w, p))
  {
    if Protocol.CanLaunch(w, p) {
    }
  }

  predicate ByServer(s: Protocol.Step) {
    s.NextRound? || s.Wake? || s.ReadDecision? || s.Simcall? || s.Answer? || s.PopConnectAck?
  }

  lemma ServerIsQuiet(w: World, s: Protocol.Step)
    requires Protocol.Enabled(w, s) && ByServer(s)
    ensures Quiet(w, Protocol.Apply(w, s))
  {
    if !s.NextRound? && !s.Wake? {
      hide Quiet, Protocol.AcksFor;
      match s {
        case ReadDecision(p) => OneChange(w, Protocol.Read(w, p), p);
        case Simcall(p, blocking) => OneChange(w, Protocol.Suspend(w, p, blocking), p);
        case Answer(p) => OneChange(w, Protocol.Reply(w, p), p);
        case PopConnectAck(p) => OneChange(w, Protocol.FinishConnect(w, p), p);
        case _ =>
      }
    }
  }

  lemma ClientIsQuiet(w: World, s: Protocol.Step)
    requires Protocol.Enabled(w, s) && IsQuiet(w, s) && !ByServer(s)
    requires !s.Schedule? && !s.IssueCreate? && !s.PopCreateAck? && !s.Launch? && !s.SemWait?
    ensures Quiet(w, Protocol.Apply(w, s))
  {
    hide Quiet;
    match s {
      case SendDecision(p, d) => OneChange(w, Protocol.Send(w, p, d), p);
      case ReceiveAck(p) => OneChange(w, Protocol.Receive(w, p), p);
      case SendConnect(p) => OneChange(w, Protocol.AskConnect(w, p), p);
      case ConnectDone(p) => OneChange(w, Protocol.EndConnect(w, p), p);
      case HookRequest(p, d) => OneChange(w, Protocol.AskInHook(w, p, d), p);
      case HookReply(p) => OneChange(w, Protocol.LearnInHook(w, p), p);
      case PostSemaphore(p) => OneChange(w, Protocol.Post(w, p), p);
      case _ =>
    }
  }

  lemma QuietStep(w: World, s: Protocol.Step)
    requires Invariant.Inv(w) && Protocol.Enabled(w, s) && IsQuiet(w, s)
    ensures Quiet(w, Protocol.Apply(w, s))
  {
    hide Quiet, Invariant.Scheduling, Invariant.Counters, Invariant.Family, Invariant.Queue;
    match s {
      case Schedule(p) => ResumeIsQuiet(w, p);
      case IssueCreate(p) => CreateIsQuiet(w, p);
      case PopCreateAck(p) => FinishCreateIsQuiet(w, p);
      case Launch(p, threaded) => TwoClientsAreQuiet(w, p, threaded);
      case SemWait(p) => TwoClientsAreQuiet(w, p, true);
      case _ => if ByServer(s) { ServerIsQuiet(w, s); } else { ClientIsQuiet(w, s); }
    }
  }

  // ----- steps that it sees

  /** SimGrid announces an actor: its pid is not in the table and in no message. */
  lemma IssuedIsNew(w: World, p: Pid)
    requires Invariant.Inv(w) && p in w.actors && w.actors[p].sim.CreateIssued?
    ensures var c := w.actors[p].sim.child;
            c in w.actors && w.actors[c].entry.Unknown? && Protocol.ActorCreate(c) !in w.toCommand
    ensures !w.maestroDone && !w.finished
  {
    Invariant.Parts(w, p);
    Invariant.Parts(w, w.actors[p].sim.child);
  }

  lemma AnnounceProjects(w: World, p: Pid, l: Ledger, queues: Queues, signalFd: int, listenerFd: int)
    requires Invariant.Inv(w) && Protocol.CanResume(w, p) && w.actors[p].sim.CreateIssued? && Projects(w, l, queues)
    ensures var c := w.actors[p].sim.child;
            var a := Creates(c, queues(c).0, queues(c).1);
            && Possible(l, a, signalFd, listenerFd)
            && Projects(Protocol.Resume(w, p), Perform(l, a, signalFd, listenerFd), queues)
  {
    IssuedIsNew(w, p);
    hide Invariant.Inv;
    var c := w.actors[p].sim.child;
    forall m <- l.queue | m.ActorCreate?
      ensures m.id != c
    {
      var i :| 0 <= i < |l.queue| && l.queue[i] == m;
      assert Matches(w.toCommand[i], l.queue[i], l.control.connections, queues);
    }
    OneMoreMessage(w, Protocol.Resume(w, p), l, Create(l, c, queues(c).0, queues(c).1), queues);
    hide QueueAgrees;
  }

  /** Both queues get the same message. */
  lemma OneMoreMessage(w: World, w': World, l: Ledger, l': Ledger, queues: Queues)
    requires QueueAgrees(w, l, queues) && l'.control == l.control && |l'.queue| == |w'.toCommand| == |l.queue| + 1
    requires w.toCommand <= w'.toCommand && l.queue <= l'.queue
    requires Matches(w'.toCommand[|l.queue|], l'.queue[|l.queue|], l.control.connections, queues)
    ensures QueueAgrees(w', l', queues)
  {
    forall i | 0 <= i < |l'.queue|
      ensures Matches(w'.toCommand[i], l'.queue[i], l'.control.connections, queues)
    {
      if i < |l.queue| {
        assert Matches(w.toCommand[i], l.queue[i], l.control.connections, queues);
      }
    }
  }

  /** An actor that handles a quit is connected, and nobody is done yet. */
  lemma QuitterIsConnected(w: World, p: Pid)
    requires Invariant.Inv(w) && Protocol.InSim(w, p, Protocol.Handling(Protocol.Quit))
    ensures w.actors[p].entry.Linked? && !w.maestroDone && !w.finished
  {
    Invariant.Parts(w, p);
  }

  lemma QuitTable(w: World, p: Pid, c: Control, queues: Queues)
    requires Protocol.InSim(w, p, Protocol.Handling(Protocol.Quit)) && TableAgrees(w, c.connections) && ToldAgrees(w, c, queues)
    ensures TableAgrees(Protocol.QuitLoop(w, p), c.connections) && ToldAgrees(Protocol.QuitLoop(w, p), c, queues)
  {
  }

  lemma QuitPlaces(w: World, p: Pid, l: Ledger)
    requires Protocol.InSim(w, p, Protocol.Handling(Protocol.Quit)) && PlacesAgree(w, l) && Links(l)
    requires p in l.control.connections && l.control.connections[p].socket.Some?
    ensures At(l, l.control.connections[p].socket.value, InSimulation)
    ensures PlacesAgree(Protocol.QuitLoop(w, p), Quit(l, l.control.connections[p].socket.value))
  {
  }

  lemma QuitProjects(w: World, p: Pid, l: Ledger, signalFd: int, listenerFd: int, queues: Queues)
    requires Invariant.Inv(w) && Protocol.InSim(w, p, Protocol.Handling(Protocol.Quit)) && Projects(w, l, queues) && Links(l)
    ensures p in l.control.connections && l.control.connections[p].socket.Some?
    ensures var a := Quits(l.control.connections[p].socket.value);
            && Possible(l, a, signalFd, listenerFd)
            && Projects(Protocol.QuitLoop(w, p), Perform(l, a, signalFd, listenerFd), queues)
  {
    QuitterIsConnected(w, p);
    hide Invariant.Inv;
    var s := l.control.connections[p].socket.value;
    OneMoreMessage(w, Protocol.QuitLoop(w, p), l, Quit(l, s), queues);
    QuitTable(w, p, l.control, queues);
    QuitPlaces(w, p, l);
    hide QueueAgrees, TableAgrees, PlacesAgree, ToldAgrees, Links;
  }

  /** At the end every actor is connected and done, and none is announced. */
  lemma AllAreKnown(w: World)
    requires Invariant.Inv(w) && Protocol.CanFinish(w)
    ensures forall p <- w.actors :: w.actors[p].entry.Linked?
    ensures forall m <- w.toCommand :: m.ActorQuit?
    ensures !w.finished
  {
    forall p <- w.actors
      ensures w.actors[p].entry.Linked? && !w.actors[p].client.Unborn?
    {
      Invariant.Parts(w, p);
    }
    hide Invariant.Family, Invariant.Counters, Invariant.Scheduling;
    forall m <- w.toCommand
      ensures m.ActorQuit?
    {
      var i :| 0 <= i < |w.toCommand| && w.toCommand[i] == m;
    }
  }

  lemma NoneInSimulation(w: World, l: Ledger)
    requires Protocol.AllDone(w) && TableAgrees(w, l.control.connections) && PlacesAgree(w, l) && Links(l)
    ensures forall s <- l.place :: !l.place[s].InSimulation?
  {
    forall s <- l.actorOf
      ensures !At(l, s, InSimulation)
    {
      var k := l.actorOf[s];
      assert l.control.connections[k].socket == Some(s) && w.actors[k].sim.Done?;
    }
  }

  /** So the engine has handed back every socket. */
  lemma FinishProjects(w: World, l: Ledger, signalFd: int, listenerFd: int, queues: Queues)
    requires Invariant.Inv(w) && Protocol.CanFinish(w) && Projects(w, l, queues) && Links(l)
    ensures EngineIdle(l) && Possible(l, Returns, signalFd, listenerFd)
    ensures Projects(Protocol.Finish(w), Perform(l, Returns, signalFd, listenerFd), queues)
  {
    AllAreKnown(w);
    hide Invariant.Inv;
    NoneInSimulation(w, l);
    forall m <- l.queue
      ensures !m.ActorCreate?
    {
      var i :| 0 <= i < |l.queue| && l.queue[i] == m;
      assert w.toCommand[i] in w.toCommand && Matches(w.toCommand[i], l.queue[i], l.control.connections, queues);
    }
  }

  /** The messages of the queue can be handled: their sockets are open. */
  lemma NextIsHandled(w: World, l: Ledger, signalFd: int, listenerFd: int, queues: Queues)
    requires Protocol.CanPop(w) && Projects(w, l, queues) && Partition(l)
    ensures Possible(l, Receives, signalFd, listenerFd)
    ensures Matches(w.toCommand[0], l.queue[0], l.control.connections, queues)
    ensures l.queue[0].ActorQuit? ==> At(l, l.queue[0].socket, Returning)
  {
    forall m <- l.queue | m.ActorQuit?
      ensures At(l, m.socket, Returning) && m.socket in l.fds
    {
      assert ActorQuit(m.socket) in l.queue;
    }
  }

  lemma AnnouncedIsUnknown(w: World)
    requires Invariant.Inv(w) && Protocol.CanPop(w) && w.toCommand[0].ActorCreate?
    ensures var c := w.toCommand[0].id; c in w.actors && w.actors[c].entry.Unknown? && !w.actors[c].sim.Done?
  {
    var c := w.toCommand[0].id;
    assert w.toCommand[0] in w.toCommand;
    Invariant.Parts(w, c);
  }

  lemma PopCreateProjects(w: World, l: Ledger, queues: Queues)
    requires Invariant.Inv(w) && Protocol.CanPop(w) && w.toCommand[0].ActorCreate? && Projects(w, l, queues)
    requires CanReceive(l) && Matches(w.toCommand[0], l.queue[0], l.control.connections, queues)
    ensures Projects(Protocol.Pop(w), Receive(l), queues)
  {
    AnnouncedIsUnknown(w);
    hide Invariant.Inv;
    var w', l' := Protocol.Pop(w), Receive(l);
    assert QueueAgrees(w', l', queues) by {
      forall i | 0 <= i < |l'.queue|
        ensures Matches(w'.toCommand[i], l'.queue[i], l'.control.connections, queues)
      {
        assert Matches(w.toCommand[i + 1], l.queue[i + 1], l.control.connections, queues);
      }
    }
  }

  lemma PopRestProjects(w: World, l: Ledger, queues: Queues)
    requires Protocol.CanPop(w) && !w.toCommand[0].ActorCreate? && Projects(w, l, queues)
    requires CanReceive(l) && Matches(w.toCommand[0], l.queue[0], l.control.connections, queues)
    requires l.queue[0].ActorQuit? ==> At(l, l.queue[0].socket, Returning)
    ensures Projects(Protocol.Pop(w), Receive(l), queues)
  {
    var w', l' := Protocol.Pop(w), Receive(l);
    assert QueueAgrees(w', l', queues) by {
      forall i | 0 <= i < |l'.queue|
        ensures Matches(w'.toCommand[i], l'.queue[i], l'.control.connections, queues)
      {
        assert Matches(w.toCommand[i + 1], l.queue[i + 1], l.control.connections, queues);
      }
    }
  }

  lemma PopProjects(w: World, l: Ledger, signalFd: int, listenerFd: int, queues: Queues)
    requires Invariant.Inv(w) && Protocol.CanPop(w) && Projects(w, l, queues) && Partition(l)
    ensures Possible(l, Receives, signalFd, listenerFd)
    ensures Projects(Protocol.Pop(w), Perform(l, Receives, signalFd, listenerFd), queues)
  {
    NextIsHandled(w, l, signalFd, listenerFd, queues);
    hide Invariant.Inv, Projects, Partition;
    if w.toCommand[0].ActorCreate? {
      PopCreateProjects(w, l, queues);
    } else {
      PopRestProjects(w, l, queues);
    }
  }

  /** A client that connects is expected, and its actor has not started. */
  lemma PendingIsExpected(w: World, p: Pid)
    requires Invariant.Inv(w) && Protocol.CanLink(w, p)
    ensures w.actors[p].entry.Expected? && !w.actors[p].sim.Done? && w.actors[p].dynamic
  {
    Invariant.Parts(w, p);
  }

  /** What it changes in the ledger: one expected actor has the socket. */
  ghost predicate Linking(l: Ledger, l': Ledger, p: int, s: SocketId) {
    var m := l.control.connections;
    && p in m && l'.control.connections == m[p := m[p].(socket := Some(s))]
    && s !in l.place && l'.place == l.place[s := InSimulation] && l'.queue == l.queue
    && l'.control.state == l.control.state && l'.control.starts == l.control.starts
    && m[p].connectAck.Some? && l'.control.pushed == l.control.pushed + [(m[p].connectAck.value, s)]
    && l'.engineDone == l.engineDone && l'.aborted == l.aborted && l'.returnCode == l.returnCode
  }

  lemma LinkTable(w: World, p: Pid, l: Ledger, l': Ledger, s: SocketId)
    requires Protocol.CanLink(w, p) && TableAgrees(w, l.control.connections) && Linking(l, l', p, s)
    ensures TableAgrees(Protocol.Link(w, p), l'.control.connections)
  {
  }

  lemma LinkPlaces(w: World, p: Pid, l: Ledger, l': Ledger, s: SocketId)
    requires Protocol.CanLink(w, p) && PlacesAgree(w, l) && Links(l) && Linking(l, l', p, s) && !w.actors[p].sim.Done?
    ensures PlacesAgree(Protocol.Link(w, p), l')
  {
    var m, w' := l'.control.connections, Protocol.Link(w, p);
    forall q | q in m && m[q].socket.Some? && q in w'.actors
      ensures At(l', m[q].socket.value, InSimulation) <==> !w'.actors[q].sim.Done?
    {
      if q != p {
        var t := l.control.connections[q].socket.value;
        assert t in l.place && (At(l, t, InSimulation) <==> !w.actors[q].sim.Done?);
      }
    }
  }

  lemma LinkQueue(w: World, p: Pid, l: Ledger, l': Ledger, s: SocketId, queues: Queues)
    requires Protocol.CanLink(w, p) && QueueAgrees(w, l, queues) && Linking(l, l', p, s) && l.control.connections[p].socket.None?
    ensures QueueAgrees(Protocol.Link(w, p), l', queues)
  {
    forall i | 0 <= i < |l'.queue|
      ensures Matches(w.toCommand[i], l'.queue[i], l'.control.connections, queues)
    {
      assert Matches(w.toCommand[i], l.queue[i], l.control.connections, queues);
    }
  }

  lemma LinkTold(w: World, p: Pid, l: Ledger, l': Ledger, s: SocketId, queues: Queues)
    requires Protocol.CanLink(w, p) && ToldAgrees(w, l.control, queues) && Linking(l, l', p, s) && Links(l)
    requires w.actors[p].dynamic
    ensures ToldAgrees(Protocol.Link(w, p), l'.control, queues)
  {
    var m, m', w' := l.control.connections, l'.control.connections, Protocol.Link(w, p);
    forall q | q in w'.actors && w'.actors[q].dynamic
      ensures q in m' ==> m'[q].connectAck == Some(queues(q).1)
      ensures Told(w'.actors[q]) <==>
              q in m' && m'[q].socket.Some? && (queues(q).1, m'[q].socket.value) in l'.control.pushed
    {
      if q == p {
        assert l'.control.pushed[|l.control.pushed|] == (queues(p).1, s);
      } else {
        assert q in m && m[q].socket.Some? ==> m[q].socket.value != s;
      }
    }
  }

  /** The command thread accepts the client and obeys its CONNECT, which is not refused. */
  lemma ConnectProjects(w: World, p: Pid, l: Ledger, s: SocketId, fd: int, signalFd: int, listenerFd: int, queues: Queues)
    requires Invariant.Inv(w) && Protocol.CanLink(w, p) && Projects(w, l, queues) && ControlInv(l.control) && Links(l)
    requires s !in l.place && fd !in {signalFd, listenerFd} && forall t <- l.fds :: l.fds[t] != fd
    ensures Possible(l, Accepts(s, fd), signalFd, listenerFd)
    ensures Possible(Accept(l, s, fd), Obeys(s, Connect(p)), signalFd, listenerFd)
    ensures Projects(Protocol.Link(w, p), Perform(Accept(l, s, fd), Obeys(s, Connect(p)), signalFd, listenerFd), queues)
  {
    PendingIsExpected(w, p);
    hide Invariant.Inv;
    ConnectLinks(w, p, l, s, fd, signalFd, listenerFd, queues);
    hide ControlInv, HandleCommand, TableAgrees, PlacesAgree, QueueAgrees, ToldAgrees, Links, Possible, Perform;
    var l' := Perform(Accept(l, s, fd), Obeys(s, Connect(p)), signalFd, listenerFd);
    LinkTable(w, p, l, l', s);
    LinkPlaces(w, p, l, l', s);
    LinkQueue(w, p, l, l', s, queues);
    LinkTold(w, p, l, l', s, queues);
  }

  lemma ConnectLinks(w: World, p: Pid, l: Ledger, s: SocketId, fd: int, signalFd: int, listenerFd: int, queues: Queues)
    requires p in w.actors && w.actors[p].entry.Expected? && !w.finished && Projects(w, l, queues) && ControlInv(l.control)
    requires s !in l.place && fd !in {signalFd, listenerFd} && forall t <- l.fds :: l.fds[t] != fd
    ensures Possible(l, Accepts(s, fd), signalFd, listenerFd)
    ensures Possible(Accept(l, s, fd), Obeys(s, Connect(p)), signalFd, listenerFd)
    ensures Linking(l, Perform(Accept(l, s, fd), Obeys(s, Connect(p)), signalFd, listenerFd), p, s)
    ensures l.control.connections[p].socket.None?
  {
    ConnectIsHandled(w, p, l, s, queues);
    hide ControlInv, HandleCommand, TableAgrees, PlacesAgree, QueueAgrees, ToldAgrees;
    assert l.place[s := Barely][s := InSimulation] == l.place[s := InSimulation];
  }

  lemma ConnectIsHandled(w: World, p: Pid, l: Ledger, s: SocketId, queues: Queues)
    requires p in w.actors && w.actors[p].entry.Expected? && !w.finished && Projects(w, l, queues) && ControlInv(l.control)
    ensures p in l.control.connections && l.control.connections[p].socket.None?
    ensures var o, m := HandleCommand(l.control, Connect(p), s), l.control.connections;
            && o.Handled? && !o.dropClient && o.next.connections == m[p := m[p].(socket := Some(s))]
            && o.next.state.SimulationRunning? && o.next.starts == l.control.starts
            && m[p].connectAck.Some? && o.next.pushed == l.control.pushed + [(m[p].connectAck.value, s)]
  {
    assert p in l.control.connections && l.control.connections[p].socket.None?;
    assert p !in l.control.starts[0];
  }

  // ----- runs

  lemma Above(numbers: set<int>) returns (bound: nat)
    ensures forall x <- numbers :: x < bound
    decreases |numbers|
  {
    if x :| x in numbers {
      var rest := numbers - {x};
      var b := Above(rest);
      bound := if x < b then b else x + 1;
      assert numbers == rest + {x};
    } else {
      bound := 0;
    }
  }

  /** A socket that was never used, and a descriptor that is not in use. */
  lemma Unused(l: Ledger, signalFd: int, listenerFd: int) returns (s: SocketId, fd: int)
    ensures s !in l.place && fd !in {signalFd, listenerFd} && forall t <- l.fds :: l.fds[t] != fd
  {
    var sockets: set<int> := set t | t in l.place :: t;
    s := Above(sockets);
    assert s in l.place ==> s in sockets;
    var fds := {signalFd, listenerFd} + l.fds.Values;
    fd := Above(fds);
    assert signalFd in fds && listenerFd in fds && forall t <- l.fds :: l.fds[t] in fds;
  }

  /** One step of the protocol is a run of the server. `queues` names the two queues of each new actor. */
  lemma StepProjects(w: World, s: Protocol.Step, l: Ledger, queues: Queues, signalFd: int, listenerFd: int)
    returns (run: seq<Action>)
    requires Invariant.Inv(w) && Protocol.Enabled(w, s) && Projects(w, l, queues) && LedgerOk(l, signalFd, listenerFd)
    ensures IsRun(l, run, signalFd, listenerFd)
    ensures Projects(Protocol.Apply(w, s), After(l, run, signalFd, listenerFd), queues)
  {
    if IsQuiet(w, s) {
      QuietStep(w, s);
      QuietKeeps(w, Protocol.Apply(w, s), l, queues);
      return [];
    }
    hide Projects, Invariant.Inv, Possible, Perform;
    match s {
      case Schedule(p) =>
        var c := w.actors[p].sim.child;
        AnnounceProjects(w, p, l, queues, signalFd, listenerFd);
        run := [Creates(c, queues(c).0, queues(c).1)];
      case QuitActor(p) =>
        QuitProjects(w, p, l, signalFd, listenerFd, queues);
        run := [Quits(l.control.connections[p].socket.value)];
      case MaestroFinish =>
        FinishProjects(w, l, signalFd, listenerFd, queues);
        run := [Returns];
      case CommandPop =>
        PopProjects(w, l, signalFd, listenerFd, queues);
        run := [Receives];
      case CommandConnect(p) =>
        run := LinkRun(w, p, l, signalFd, listenerFd, queues);
        return;
    }
    OneAction(l, run[0], signalFd, listenerFd);
  }

  lemma LinkRun(w: World, p: Pid, l: Ledger, signalFd: int, listenerFd: int, queues: Queues) returns (run: seq<Action>)
    requires Invariant.Inv(w) && Protocol.CanLink(w, p) && Projects(w, l, queues) && LedgerOk(l, signalFd, listenerFd)
    ensures IsRun(l, run, signalFd, listenerFd)
    ensures Projects(Protocol.Link(w, p), After(l, run, signalFd, listenerFd), queues)
  {
    var s, fd := Unused(l, signalFd, listenerFd);
    ConnectProjects(w, p, l, s, fd, signalFd, listenerFd, queues);
    hide Projects, Invariant.Inv, LedgerOk, Possible;
    OneAction(l, Accepts(s, fd), signalFd, listenerFd);
    OneMoreAction(l, [Accepts(s, fd)], Obeys(s, Connect(p)), signalFd, listenerFd);
    run := [Accepts(s, fd)] + [Obeys(s, Connect(p))];
  }

  lemma {:induction false} RunProjects(w: World, steps: seq<Protocol.Step>, l: Ledger, queues: Queues,
                                       signalFd: int, listenerFd: int)
    returns (run: seq<Action>)
    requires Invariant.Inv(w) && Protocol.IsRun(w, steps) && Projects(w, l, queues) && LedgerOk(l, signalFd, listenerFd)
    ensures IsRun(l, run, signalFd, listenerFd)
    ensures Projects(Protocol.After(w, steps), After(l, run, signalFd, listenerFd), queues)
    decreases |steps|
  {
    hide Projects, Invariant.Inv, LedgerOk, Protocol.Enabled, Protocol.Apply;
    if steps == [] {
      run := [];
    } else {
      var first := StepProjects(w, steps[0], l, queues, signalFd, listenerFd);
      Steps.StepKeepsInv(w, steps[0]);
      RunKeepsOk(l, first, signalFd, listenerFd);
      var rest := RunProjects(Protocol.Apply(w, steps[0]), steps[1..], After(l, first, signalFd, listenerFd), queues,
                              signalFd, listenerFd);
      RunsJoin(l, first, rest, signalFd, listenerFd);
      run := first + rest;
    }
  }

  /** Other clients come and go, with any command but KILL. */
  lemma OthersKeepProjection(w: World, l: Ledger, a: Action, signalFd: int, listenerFd: int, queues: Queues)
    requires Projects(w, l, queues) && Partition(l) && Links(l) && Possible(l, a, signalFd, listenerFd)
    requires a.Accepts? || a.Assembles? || a.Deletes? || (a.Obeys? && !a.command.Connect? && !a.command.Kill?)
    ensures Projects(w, Perform(l, a, signalFd, listenerFd), queues)
  {
    MovedIsOpen(l, a, signalFd, listenerFd);
    hide Partition;
  }

  // ----- the beginning

  /** Until the simulation starts no actor hands its socket back, and nothing goes wrong. */
  ghost predicate AllInSimulation(l: Ledger) {
    var m := l.control.connections;
    forall k | k in m && m[k].socket.Some? :: At(l, m[k].socket.value, InSimulation)
  }

  ghost predicate BeforeStart(l: Ledger) {
    l.control.starts == [] ==> AllInSimulation(l) && l.returnCode == 0
  }

  lemma ObeyKeepsAll(l: Ledger, s: SocketId, c: Command)
    requires ControlInv(l.control) && Partition(l) && AllInSimulation(l) && s in l.barely && s in l.fds
    requires !l.control.state.SimulationFinished? && HandleCommand(l.control, c, s).Handled?
    ensures var o := HandleCommand(l.control, c, s);
            AllInSimulation(Settle(l, s, c, o.next, o.dropClient))
    ensures l.control.starts != [] ==> HandleCommand(l.control, c, s).next.starts == l.control.starts
  {
    CommandEffect(l.control, c, s);
    BarelyIsOpen(l, s);
    hide HandleCommand, ControlInv, Partition;
  }

  lemma StartsStay(l: Ledger, a: Action, signalFd: int, listenerFd: int)
    requires ControlInv(l.control) && Possible(l, a, signalFd, listenerFd) && l.control.starts != []
    ensures Perform(l, a, signalFd, listenerFd).control.starts == l.control.starts
  {
    if a.Obeys? {
      CommandEffect(l.control, a.command, a.socket);
    }
    hide HandleCommand, ControlInv;
  }

  lemma ActionBeforeStart(l: Ledger, a: Action, signalFd: int, listenerFd: int)
    requires LedgerOk(l, signalFd, listenerFd) && BeforeStart(l) && Possible(l, a, signalFd, listenerFd)
    ensures BeforeStart(Perform(l, a, signalFd, listenerFd))
  {
    if l.control.starts != [] {
      StartsStay(l, a, signalFd, listenerFd);
      hide Perform, Possible, LedgerOk;
    } else {
      MovedIsOpen(l, a, signalFd, listenerFd);
      assert a.Receives? ==> l.queue == [];
      if a.Obeys? {
        ObeyKeepsAll(l, a.socket, a.command);
      }
      hide HandleCommand, ControlInv, Partition, Descriptors, Messages, Links;
    }
  }

  lemma {:induction false} RunBeforeStart(l: Ledger, run: seq<Action>, signalFd: int, listenerFd: int)
    requires LedgerOk(l, signalFd, listenerFd) && BeforeStart(l) && IsRun(l, run, signalFd, listenerFd)
    ensures BeforeStart(After(l, run, signalFd, listenerFd))
    decreases |run|
  {
    if run != [] {
      ActionKeepsOk(l, run[0], signalFd, listenerFd);
      ActionBeforeStart(l, run[0], signalFd, listenerFd);
      hide LedgerOk, BeforeStart, Possible, Perform;
      RunBeforeStart(Perform(l, run[0], signalFd, listenerFd), run[1..], signalFd, listenerFd);
    }
  }

  lemma LaunchedComplete(s: Control, c: Command, issuer: SocketId)
    requires ControlInv(s) && s.starts == [] && !s.state.SimulationFinished? && HandleCommand(s, c, issuer).Handled?
    requires HandleCommand(s, c, issuer).next.starts != []
    ensures var next := HandleCommand(s, c, issuer).next;
            && next.starts == [next.connections] && next.state.SimulationRunning? && Contiguous(next.connections)
            && forall k <- next.connections :: next.connections[k].socket.Some?
  {
    LaunchedNow(s, c, issuer);
    HandleCommandKeepsInv(s, c, issuer);
    hide HandleCommand;
  }

  lemma LaunchedNow(s: Control, c: Command, issuer: SocketId)
    requires s.starts == [] && HandleCommand(s, c, issuer).Handled? && HandleCommand(s, c, issuer).next.starts != []
    ensures var next := HandleCommand(s, c, issuer).next;
            next.starts == [next.connections] && next.state.SimulationRunning?
  {
  }

  /** The command that starts the simulation puts the server in the initial state of the protocol. */
  lemma StartProjects(l: Ledger, s: SocketId, c: Command, signalFd: int, listenerFd: int, queues: Queues)
    requires LedgerOk(l, signalFd, listenerFd) && BeforeStart(l) && l.control.starts == []
    requires Possible(l, Obeys(s, c), signalFd, listenerFd)
    requires Perform(l, Obeys(s, c), signalFd, listenerFd).control.starts != []
    ensures var l' := Perform(l, Obeys(s, c), signalFd, listenerFd);
            Projects(Protocol.Init(|l'.control.connections|), l', queues)
  {
    LaunchedComplete(l.control, c, s);
    ObeyKeepsAll(l, s, c);
    assert l.queue == [] && !l.engineDone && !l.aborted;
    hide HandleCommand, LedgerOk, BeforeStart, AllInSimulation, Contiguous, Projects;
    InitialProjects(Perform(l, Obeys(s, c), signalFd, listenerFd), queues);
  }

  lemma InitialProjects(l: Ledger, queues: Queues)
    requires Contiguous(l.control.connections)
    requires forall k <- l.control.connections :: l.control.connections[k].socket.Some?
    requires AllInSimulation(l) && l.queue == [] && !l.engineDone && !l.aborted && l.returnCode == 0
    requires l.control.starts != [] && l.control.state.SimulationRunning?
    ensures Projects(Protocol.Init(|l.control.connections|), l, queues)
  {
    InitialTable(l.control.connections);
    hide Contiguous, TableAgrees;
  }

  lemma InitialTable(m: Table)
    requires Contiguous(m) && forall k <- m :: m[k].socket.Some?
    ensures TableAgrees(Protocol.Init(|m|), m)
    ensures forall p <- Protocol.Init(|m|).actors :: !Protocol.Init(|m|).actors[p].sim.Done?
  {
    forall p
      ensures p in m <==> p in Protocol.Init(|m|).actors
    {
      assert IsInitialId(|m|, p) <==> Protocol.InitialPid(|m|, p);
    }
  }

  /** The command that comes after the actions `before` starts the simulation. */
  ghost predicate StartsAfter(before: seq<Action>, s: SocketId, c: Command, signalFd: int, listenerFd: int) {
    && signalFd != listenerFd && IsRun(InitialLedger(signalFd, listenerFd), before, signalFd, listenerFd)
    && var l := After(InitialLedger(signalFd, listenerFd), before, signalFd, listenerFd);
       && l.control.starts == [] && Possible(l, Obeys(s, c), signalFd, listenerFd)
       && Perform(l, Obeys(s, c), signalFd, listenerFd).control.starts != []
  }

  ghost function Started(before: seq<Action>, s: SocketId, c: Command, signalFd: int, listenerFd: int): Ledger
    requires StartsAfter(before, s, c, signalFd, listenerFd)
  {
    Perform(After(InitialLedger(signalFd, listenerFd), before, signalFd, listenerFd), Obeys(s, c), signalFd, listenerFd)
  }

  lemma NothingBeforeStart(signalFd: int, listenerFd: int)
    ensures BeforeStart(InitialLedger(signalFd, listenerFd))
  {
  }

  lemma StartedProjects(before: seq<Action>, s: SocketId, c: Command, signalFd: int, listenerFd: int, queues: Queues)
    requires StartsAfter(before, s, c, signalFd, listenerFd)
    ensures var l := Started(before, s, c, signalFd, listenerFd);
            && LedgerOk(l, signalFd, listenerFd) && Projects(Protocol.Init(|l.control.connections|), l, queues)
            && IsRun(InitialLedger(signalFd, listenerFd), before + [Obeys(s, c)], signalFd, listenerFd)
            && l == After(InitialLedger(signalFd, listenerFd), before + [Obeys(s, c)], signalFd, listenerFd)
  {
    var l0 := InitialLedger(signalFd, listenerFd);
    hide LedgerOk, BeforeStart, Possible, Perform, Projects, IsRun, After, InitialLedger;
    InitialLedgerOk(signalFd, listenerFd);
    NothingBeforeStart(signalFd, listenerFd);
    RunBeforeStart(l0, before, signalFd, listenerFd);
    RunKeepsOk(l0, before, signalFd, listenerFd);
    StartProjects(After(l0, before, signalFd, listenerFd), s, c, signalFd, listenerFd, queues);
    OneMoreAction(l0, before, Obeys(s, c), signalFd, listenerFd);
    RunKeepsOk(l0, before + [Obeys(s, c)], signalFd, listenerFd);
  }

  /** Whatever happened until the command that starts the simulation, and whatever the protocol does then
      with the actors of the table, is a run of the server: SimGrid's pids are new for the command thread,
      and when the engine returns every socket has been handed back. */
  lemma ProtocolRunsAreServerRuns(before: seq<Action>, s: SocketId, c: Command, steps: seq<Protocol.Step>,
                                  queues: Queues, signalFd: int, listenerFd: int)
    returns (run: seq<Action>)
    requires StartsAfter(before, s, c, signalFd, listenerFd)
    requires var n := |Started(before, s, c, signalFd, listenerFd).control.connections|;
             Protocol.IsRun(Protocol.Init(n), steps)
    ensures var l0 := InitialLedger(signalFd, listenerFd);
            var n := |Started(before, s, c, signalFd, listenerFd).control.connections|;
            && IsRun(l0, before + [Obeys(s, c)] + run, signalFd, listenerFd)
            && Projects(Protocol.After(Protocol.Init(n), steps),
                        After(l0, before + [Obeys(s, c)] + run, signalFd, listenerFd), queues)
  {
    var l0, l := InitialLedger(signalFd, listenerFd), Started(before, s, c, signalFd, listenerFd);
    StartedProjects(before, s, c, signalFd, listenerFd, queues);
    Steps.InitInv(|l.control.connections|);
    hide StartsAfter, Started, LedgerOk, Projects, Protocol.IsRun, Protocol.After, Invariant.Inv;
    run := RunProjects(Protocol.Init(|l.control.connections|), steps, l, queues, signalFd, listenerFd);
    RunsJoin(l0, before + [Obeys(s, c)], run, signalFd, listenerFd);
  }

  /** So a simulation in which no actor fails, and whose actors all quit, ends well, with nothing assumed of
      the engine: the server returns 0, no message is left, and no socket is left on the SimGrid side. */
  lemma FinishedProtocolLosesNothing(before: seq<Action>, s: SocketId, c: Command, steps: seq<Protocol.Step>,
                                     queues: Queues, signalFd: int, listenerFd: int)
    returns (run: seq<Action>)
    requires StartsAfter(before, s, c, signalFd, listenerFd)
    requires var n := |Started(before, s, c, signalFd, listenerFd).control.connections|;
             Protocol.IsRun(Protocol.Init(n), steps) && Protocol.After(Protocol.Init(n), steps).finished
    ensures IsRun(InitialLedger(signalFd, listenerFd), before + [Obeys(s, c)] + run, signalFd, listenerFd)
    ensures var l := After(InitialLedger(signalFd, listenerFd), before + [Obeys(s, c)] + run, signalFd, listenerFd);
            && l.control.state.SimulationFinished? && l.returnCode == 0 && l.queue == []
            && (forall t <- l.fds :: t in l.barely || t in l.dropped)
            && (forall k <- l.control.connections :: l.control.connections[k].socket.Some?)
  {
    run := ProtocolRunsAreServerRuns(before, s, c, steps, queues, signalFd, listenerFd);
    assert signalFd != listenerFd && Projects(
      Protocol.After(Protocol.Init(|Started(before, s, c, signalFd, listenerFd).control.connections|), steps),
      After(InitialLedger(signalFd, listenerFd), before + [Obeys(s, c)] + run, signalFd, listenerFd), queues);
    hide StartsAfter, Started, IsRun, Protocol.IsRun, Protocol.After, LedgerOk, After;
    NothingLostAtTheEnd(before + [Obeys(s, c)] + run, signalFd, listenerFd);
    ReachedIsOk(before + [Obeys(s, c)] + run, signalFd, listenerFd);
    OpenAreOwn(After(InitialLedger(signalFd, listenerFd), before + [Obeys(s, c)] + run, signalFd, listenerFd),
               signalFd, listenerFd);
  }

  lemma OpenAreOwn(l: Ledger, signalFd: int, listenerFd: int)
    requires LedgerOk(l, signalFd, listenerFd) && l.control.state.SimulationFinished? && l.returnCode == 0
    ensures forall t <- l.fds :: t in l.barely || t in l.dropped
  {
    CleanEnd(l);
    hide ControlInv, Descriptors, Messages, Links;
  }

  /** The last two results are about something: one actor registers, connects, runs, and quits. */
  lemma OneActorRunsAndQuits(signalFd: int, listenerFd: int, fds: seq<int>)
    returns (before: seq<Action>, steps: seq<Protocol.Step>)
    requires |fds| == 3 && signalFd != listenerFd && AreFree(fds, signalFd, listenerFd)
    ensures StartsAfter(before, 2, Start, signalFd, listenerFd)
    ensures var n := |Started(before, 2, Start, signalFd, listenerFd).control.connections|;
            n == 1 && Protocol.IsRun(Protocol.Init(n), steps) && Protocol.After(Protocol.Init(n), steps).finished
  {
    steps := Examples.OneActorQuits();
    var c1, c2, c3, c4 := FourCommands();
    assert fds[0] != fds[1] && fds[0] != fds[2] && fds[1] != fds[2];
    hide HandleCommand, Protocol.IsRun, Protocol.After, Reaches, StartsAfter, Started, AreFree, Protocol.Init;
    var run, l := OneActorConnects(c1, c2, fds[0], fds[1], signalFd, listenerFd);
    before := ThirdClientStarts(run, l, fds[2], signalFd, listenerFd);
  }

  lemma ThirdClientStarts(run: seq<Action>, l: Ledger, fd: int, signalFd: int, listenerFd: int) returns (before: seq<Action>)
    requires signalFd != listenerFd && Reaches(run, l, signalFd, listenerFd) && 2 !in l.place
    requires fd !in {signalFd, listenerFd} && forall t <- l.fds :: l.fds[t] != fd
    requires l.control.starts == [] && !l.control.state.SimulationFinished? && HandleCommand(l.control, Start, 2).Handled?
    requires HandleCommand(l.control, Start, 2).next.starts != []
    ensures StartsAfter(before, 2, Start, signalFd, listenerFd)
    ensures Started(before, 2, Start, signalFd, listenerFd).control == HandleCommand(l.control, Start, 2).next
  {
    hide HandleCommand, IsRun, After;
    OneMoreAction(InitialLedger(signalFd, listenerFd), run, Accepts(2, fd), signalFd, listenerFd);
    before := run + [Accepts(2, fd)];
  }
}
