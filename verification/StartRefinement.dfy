/** The command machine before the simulation, against an abstract one that only knows who registered,
    who connected and whether START came. */
module StartRefinement {
  import opened Wrappers
  import opened Commands

  datatype Event = Event(command: Command, issuer: SocketId)

  /** Registered actors in order of registration, the socket of each connected id, START received. */
  datatype Summary = Summary(names: seq<(string, string)>, linked: map<int, SocketId>, started: bool)

  predicate AllLinked(m: Summary) {
    forall id | 2 <= id < |m.names| + 2 :: id in m.linked
  }

  ghost predicate WellFormed(m: Summary) {
    forall id <- m.linked :: IsInitialId(|m.names|, id)
  }

  /** The specification: which commands are legal, and what each of them records. KILL is not part of
      it. */
  function Next(m: Summary, e: Event): Option<Summary> {
    match e.command
    case AddActor(actorName, hostName) =>
      if m.started then None else Some(m.(names := m.names + [(actorName, hostName)]))
    case Start => if m.started then None else Some(m.(started := true))
    case Connect(id) =>
      if IsInitialId(|m.names|, id) && id !in m.linked then Some(m.(linked := m.linked[id := e.issuer])) else None
    case Status => Some(m)
    case _ => None
  }

  function NextAll(m: Summary, h: seq<Event>): Option<Summary>
    decreases |h|
  {
    if h == [] then Some(m)
    else match Next(m, h[0])
         case None => None
         case Some(m1) => NextAll(m1, h[1..])
  }

  /** The table that a summary stands for. */
  function TableOf(m: Summary): Table {
    map id: int | 2 <= id < |m.names| + 2 && IsInitialId(|m.names|, id) ::
      ActorConnection(m.names[id - 2].0, m.names[id - 2].1, id,
                      if id in m.linked then Some(m.linked[id]) else None, None)
  }

  /** The concrete state of a summary: running exactly when START was received and every registered
      actor is connected, and then started once, with the complete table. */
  function ControlOf(m: Summary): Control {
    var running := m.started && AllLinked(m);
    Control(if running then SimulationRunning
            else if m.started then WaitingForAllActorsConnection
            else AcceptingNewActors,
            TableOf(m), |m.linked|, if running then [TableOf(m)] else [], [])
  }

  function RunCommands(s: Control, h: seq<Event>): Option<Control>
    decreases |h|
  {
    if h == [] then Some(s)
    else match HandleCommand(s, h[0].command, h[0].issuer)
         case Refused(_) => None
         case Handled(s1, _, _) => RunCommands(s1, h[1..])
  }

  lemma {:induction false} InitialIdsSize(n: nat)
    ensures |InitialIds(n)| == n
  {
    if n == 0 {
      assert InitialIds(n) == {};
    } else {
      InitialIdsSize(n - 1);
      assert InitialIds(n) == InitialIds(n - 1) + {n + 1};
    }
  }

  lemma TableSize(m: Summary)
    ensures |TableOf(m)| == |m.names|
  {
    InitialIdsSize(|m.names|);
    assert TableOf(m).Keys == InitialIds(|m.names|);
  }

  /** Counting connected actors is enough to know that all of them are. */
  lemma CountDecides(m: Summary)
    requires WellFormed(m)
    ensures |m.linked| == |m.names| <==> AllLinked(m)
    ensures |m.linked| <= |m.names|
  {
    TableSize(m);
    var keys := TableOf(m).Keys;
    SubsetIsSmaller(m.linked.Keys, keys);
    if |m.linked| == |m.names| {
      SubsetOfFullSize(m.linked.Keys, keys);
      forall id | 2 <= id < |m.names| + 2
        ensures id in m.linked
      {
        assert IsInitialId(|m.names|, id) && id in keys;
      }
    } else if AllLinked(m) {
      assert keys <= m.linked.Keys;
      SubsetIsSmaller(keys, m.linked.Keys);
    }
  }

  /** One command does what the specification says, or is refused when the specification refuses it. */
  lemma StepRefines(m: Summary, e: Event)
    requires WellFormed(m) && !e.command.Kill?
    ensures match Next(m, e)
            case None => HandleCommand(ControlOf(m), e.command, e.issuer).Refused?
            case Some(m1) =>
              && WellFormed(m1)
              && HandleCommand(ControlOf(m), e.command, e.issuer).Handled?
              && HandleCommand(ControlOf(m), e.command, e.issuer).next == ControlOf(m1)
  {
    TableSize(m);
    CountDecides(m);
    match Next(m, e)
    case None => if e.command.Connect? { RefusedConnect(m, e.command.id); }
    case Some(m1) =>
      TableSize(m1);
      CountDecides(m1);
      match e.command {
        case AddActor(_, _) => RegisterRefines(m, e);
        case Connect(_) => LinkRefines(m, e);
        case _ =>
      }
  }

  lemma RefusedConnect(m: Summary, id: int)
    requires !IsInitialId(|m.names|, id) || id in m.linked
    ensures id !in TableOf(m) || TableOf(m)[id].socket.Some?
  {
  }

  lemma RegisterRefines(m: Summary, e: Event)
    requires WellFormed(m) && e.command.AddActor? && Next(m, e).Some?
    ensures WellFormed(Next(m, e).value)
    ensures HandleCommand(ControlOf(m), e.command, e.issuer).Handled?
    ensures HandleCommand(ControlOf(m), e.command, e.issuer).next == ControlOf(Next(m, e).value)
  {
    TableSize(m);
    var m1, id := Next(m, e).value, |m.names| + 2;
    forall i <- m.linked
      ensures IsInitialId(|m1.names|, i)
    {
      assert IsInitialId(|m.names|, i);
    }
    assert id !in TableOf(m);
    assert TableOf(m1) == TableOf(m)[id := ActorConnection(e.command.actorName, e.command.hostName, id, None, None)];
  }

  lemma LinkRefines(m: Summary, e: Event)
    requires WellFormed(m) && e.command.Connect? && Next(m, e).Some?
    ensures WellFormed(Next(m, e).value)
    ensures HandleCommand(ControlOf(m), e.command, e.issuer).Handled?
    ensures HandleCommand(ControlOf(m), e.command, e.issuer).next == ControlOf(Next(m, e).value)
  {
    var id := e.command.id;
    var m1 := m.(linked := m.linked[id := e.issuer]);
    assert Next(m, e) == Some(m1) && WellFormed(m1) && !AllLinked(m);
    hide TableOf, AllLinked, WellFormed, Next;
    TableSize(m);
    TableSize(m1);
    CountDecides(m);
    CountDecides(m1);
    LinkedTable(m, id, e.issuer);
    if m.started {
    }
  }

  lemma LinkedTable(m: Summary, id: int, socket: SocketId)
    requires IsInitialId(|m.names|, id) && id !in m.linked
    ensures TableOf(m.(linked := m.linked[id := socket])) == TableOf(m)[id := TableOf(m)[id].(socket := Some(socket))]
    ensures TableOf(m)[id].socket.None? && TableOf(m)[id].connectAck.None?
  {
  }

  /** Its acknowledgment carries the new id, or the number of connected actors, and only the sockets
      of connected actors are kept. */
  lemma AckRefines(m: Summary, e: Event)
    requires WellFormed(m) && Next(m, e).Some?
    ensures var o := HandleCommand(ControlOf(m), e.command, e.issuer);
            && o.Handled?
            && o.ack == CommandAck(true, if e.command.AddActor? then NewActor(|m.names| + 2)
                                         else if e.command.Status? then NbConnected(|m.linked|) else NoInfo)
            && (o.dropClient <==> !e.command.Connect?)
  {
    TableSize(m);
    StepRefines(m, e);
    HandledAck(ControlOf(m), e.command, e.issuer);
    hide HandleCommand, TableOf, AllLinked;
  }

  lemma HandledAck(s: Control, c: Command, issuer: SocketId)
    requires !s.state.Killed? && HandleCommand(s, c, issuer).Handled?
    ensures var o := HandleCommand(s, c, issuer);
            && o.ack == CommandAck(true, if c.AddActor? then NewActor(|s.connections| + 2)
                                         else if c.Status? then NbConnected(s.nbConnected) else NoInfo)
            && (o.dropClient <==> !c.Connect?)
  {
  }

  /** After a KILL, registrations and connections are acknowledged as failures, START ends the server, and every
      client is dropped; the table and what was started stay as they are. */
  lemma KilledAnswers(s: Control, c: Command, issuer: SocketId)
    requires s.state.Killed?
    ensures var o := HandleCommand(s, c, issuer);
            && (o.Refused? <==> c.Start? || c.TypeNotSet?)
            && (o.Handled? ==>
                  && o.next == s && o.dropClient && (o.ack.success <==> c.Status? || c.Kill?)
                  && o.ack.info == if c.Status? then NbConnected(s.nbConnected) else NoInfo)
  {
  }

  /** Which commands end the server, and how. */
  lemma RefusedExactly(s: Control, c: Command, issuer: SocketId)
    requires ControlInv(s)
    ensures var o := HandleCommand(s, c, issuer);
            && (o == Refused(UnsetCommand) <==> c.TypeNotSet?)
            && (o == Refused(WrongState) <==>
                  || (c.AddActor? && !s.state.AcceptingNewActors? && !s.state.Killed?)
                  || (c.Start? && !s.state.AcceptingNewActors?)
                  || (c.Connect? && s.state.SimulationFinished?))
            && (forall id :: o == Refused(UnknownActor(id)) <==>
                  c == Connect(id) && !s.state.SimulationFinished? && !s.state.Killed? && id !in s.connections)
            && (forall id :: o == Refused(AlreadyConnected(id)) <==>
                  && c == Connect(id) && !s.state.SimulationFinished? && !s.state.Killed?
                  && id in s.connections && s.connections[id].socket.Some?)
            && (o.Refused? ==> !o.error.NoConnectAck? && !o.error.DuplicateActor?)
  {
    HandleCommandKeepsInv(s, c, issuer);
  }

  /** Every history without KILL: accepted exactly when the specification accepts it, and then in the
      state of its summary. */
  lemma {:induction false} RunRefines(m: Summary, h: seq<Event>)
    requires WellFormed(m) && forall e <- h :: !e.command.Kill?
    ensures match NextAll(m, h)
            case None => RunCommands(ControlOf(m), h) == None
            case Some(m1) => WellFormed(m1) && RunCommands(ControlOf(m), h) == Some(ControlOf(m1))
    decreases |h|
  {
    if h != [] {
      StepRefines(m, h[0]);
      if Next(m, h[0]).Some? {
        RunRefines(Next(m, h[0]).value, h[1..]);
      }
    }
  }

  const EMPTY_SUMMARY := Summary([], map[], false)

  lemma EmptyIsInitial()
    ensures ControlOf(EMPTY_SUMMARY) == INITIAL_CONTROL
  {
    assert TableOf(EMPTY_SUMMARY) == map[];
  }

  /** The server as it starts: running if and only if START was received and all registered actors
      are connected; the simulation was then started exactly once, with every socket present, and
      otherwise never; while it waits, some registered actor is missing. */
  lemma StartsExactlyWhenComplete(h: seq<Event>)
    requires forall e <- h :: !e.command.Kill?
    requires RunCommands(INITIAL_CONTROL, h).Some?
    ensures NextAll(EMPTY_SUMMARY, h).Some?
    ensures var m, s := NextAll(EMPTY_SUMMARY, h).value, RunCommands(INITIAL_CONTROL, h).value;
            && (s.state.SimulationRunning? <==> m.started && AllLinked(m))
            && s.starts == (if s.state.SimulationRunning? then [s.connections] else [])
            && (s.state.SimulationRunning? ==> forall id <- s.connections :: s.connections[id].socket.Some?)
            && (s.state.WaitingForAllActorsConnection? ==> s.nbConnected < |s.connections|)
            && s.connections == TableOf(m)
  {
    EmptyIsInitial();
    RunRefines(EMPTY_SUMMARY, h);
    var m := NextAll(EMPTY_SUMMARY, h).value;
    TableSize(m);
    CountDecides(m);
  }

  // ----- confluence

  predicate Reorderable(e: Event) {
    !e.command.AddActor? && !e.command.Kill?
  }

  function Then(m: Option<Summary>, e: Event): Option<Summary> {
    if m.None? then None else Next(m.value, e)
  }

  lemma TwoSteps(m: Summary, e: Event, f: Event)
    ensures NextAll(m, [e, f]) == Then(Next(m, e), f)
  {
    assert [e, f][1..] == [f] && [f][1..] == [];
    if Next(m, e).Some? {
      var m1 := Next(m, e).value;
      assert NextAll(m1, [f]) == if Next(m1, f).Some? then NextAll(Next(m1, f).value, []) else None;
    }
  }

  /** Two commands that register nobody can be exchanged. */
  lemma Commute(m: Summary, e: Event, f: Event)
    requires Reorderable(e) && Reorderable(f)
    ensures NextAll(m, [e, f]) == NextAll(m, [f, e])
  {
    TwoSteps(m, e, f);
    TwoSteps(m, f, e);
    if e.command.Connect? && f.command.Connect? && e.command.id != f.command.id {
      assert m.linked[e.command.id := e.issuer][f.command.id := f.issuer]
          == m.linked[f.command.id := f.issuer][e.command.id := e.issuer];
    }
  }

  lemma {:induction false} NextAllSplits(m: Summary, a: seq<Event>, b: seq<Event>)
    ensures NextAll(m, a + b) == match NextAll(m, a) case None => None case Some(m1) => NextAll(m1, b)
    decreases |a|
  {
    if a == [] {
      assert a + b == b;
    } else {
      assert (a + b)[1..] == a[1..] + b;
      if Next(m, a[0]).Some? {
        NextAllSplits(Next(m, a[0]).value, a[1..], b);
      }
    }
  }

  lemma {:induction false} Bubble(m: Summary, a: seq<Event>, e: Event, b: seq<Event>)
    requires Reorderable(e) && forall f <- a :: Reorderable(f)
    ensures NextAll(m, a + [e] + b) == NextAll(m, [e] + a + b)
    decreases |a|
  {
    if a == [] {
      assert a + [e] + b == [e] + a + b;
    } else {
      var f, t := a[0], a[1..];
      assert a + [e] + b == [f] + (t + [e] + b);
      assert [e] + a + b == [e, f] + (t + b);
      assert [f, e] + (t + b) == [f] + ([e] + t + b);
      NextAllSplits(m, [f], t + [e] + b);
      NextAllSplits(m, [f], [e] + t + b);
      if NextAll(m, [f]).Some? {
        Bubble(NextAll(m, [f]).value, t, e, b);
      }
      Commute(m, e, f);
      NextAllSplits(m, [e, f], t + b);
      NextAllSplits(m, [f, e], t + b);
    }
  }

  /** A permutation of `[e] + t` is `t` permuted, with `e` put somewhere inside. */
  lemma Extract(e: Event, t: seq<Event>, k: seq<Event>) returns (a: seq<Event>, b: seq<Event>)
    requires multiset([e] + t) == multiset(k)
    ensures k == a + [e] + b && multiset(a + b) == multiset(t)
  {
    assert e in multiset([e] + t);
    var i :| 0 <= i < |k| && k[i] == e;
    a, b := k[..i], k[i + 1..];
    assert k == a + [e] + b;
    assert multiset([e] + t) == multiset{e} + multiset(t);
    assert multiset(a + [e]) == multiset(a) + multiset{e};
    assert multiset(k) == multiset{e} + multiset(a + b);
    assert multiset(t) == multiset(k) - multiset{e} == multiset(a + b);
  }

  lemma {:induction false} PermutationsAgree(m: Summary, h: seq<Event>, k: seq<Event>)
    requires multiset(h) == multiset(k)
    requires (forall e <- h :: Reorderable(e)) && (forall e <- k :: Reorderable(e))
    ensures NextAll(m, h) == NextAll(m, k)
    decreases |h|
  {
    if h == [] {
      assert |multiset(k)| == |k|;
    } else {
      var e, t := h[0], h[1..];
      assert h == [e] + t;
      var a, b := Extract(e, t, k);
      Bubble(m, a, e, b);
      assert [e] + a + b == [e] + (a + b);
      NextAllSplits(m, [e], a + b);
      NextAllSplits(m, [e], t);
      if NextAll(m, [e]).Some? {
        PermutationsAgree(NextAll(m, [e]).value, t, a + b);
      }
    }
  }

  /** After any registration phase, the order in which START and the CONNECTs arrive does not matter:
      either every order is refused somewhere, or all of them reach the same state, with the same
      socket for each actor. */
  lemma StartConfluence(adds: seq<Event>, h: seq<Event>, k: seq<Event>)
    requires forall e <- adds :: !e.command.Kill?
    requires forall e <- h :: Reorderable(e)
    requires multiset(h) == multiset(k)
    ensures RunCommands(INITIAL_CONTROL, adds + h) == RunCommands(INITIAL_CONTROL, adds + k)
  {
    EmptyIsInitial();
    forall e <- k
      ensures Reorderable(e)
    {
      assert e in multiset(k);
    }
    RunRefines(EMPTY_SUMMARY, adds + h);
    RunRefines(EMPTY_SUMMARY, adds + k);
    NextAllSplits(EMPTY_SUMMARY, adds, h);
    NextAllSplits(EMPTY_SUMMARY, adds, k);
    if NextAll(EMPTY_SUMMARY, adds).Some? {
      PermutationsAgree(NextAll(EMPTY_SUMMARY, adds).value, h, k);
    }
  }

  /** KILL is accepted in every state, and final: whatever comes after, nobody is registered or
      connected any more and no simulation starts. */
  lemma KillIsFinal(s: Control, kill: Event, h: seq<Event>)
    requires kill.command.Kill? && RunCommands(s, [kill] + h).Some?
    ensures RunCommands(s, [kill] + h).value == s.(state := Killed)
  {
    assert ([kill] + h)[1..] == h;
    KilledStays(s.(state := Killed), h);
  }

  lemma {:induction false} KilledStays(s: Control, h: seq<Event>)
    requires s.state.Killed? && RunCommands(s, h).Some?
    ensures RunCommands(s, h).value == s
    decreases |h|
  {
    if h != [] {
      KilledStays(s, h[1..]);
    }
  }
}
