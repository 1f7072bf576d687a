/** The command machine of the server: what one command received on a barely connected socket does to
    the server state, the actor table and the counter of connected actors. */
module Commands {
  import opened Wrappers

  type SocketId = nat
  type QueueId = nat

  datatype ServerState =
    | AcceptingNewActors
    | WaitingForAllActorsConnection
    | SimulationRunning
    | SimulationFinished
    | Killed

  datatype ActorConnection = ActorConnection(
    actorName: string,
    hostName: string,
    actorId: int,
    socket: Option<SocketId>,
    connectAck: Option<QueueId>)

  type Table = map<int, ActorConnection>

  datatype Command =
    | AddActor(actorName: string, hostName: string)
    | Start
    | Kill(reason: string)
    | Status
    | Connect(id: int)
    | TypeNotSet

  datatype AckInfo = NoInfo | NewActor(id: int) | NbConnected(count: nat)

  datatype CommandAck = CommandAck(success: bool, info: AckInfo)

  /** The exceptions thrown while a command is handled. */
  datatype CommandError =
    | WrongState
    | UnknownActor(id: int)
    | AlreadyConnected(id: int)
    | NoConnectAck(id: int)
    | UnsetCommand
    | DuplicateActor(id: int)

  /** State shared by all commands. `starts` lists the tables handed to
      `start_simulation_in_another_thread`, `pushed` the ACTOR_CONNECTED messages sent to dynamic
      actors. */
  datatype Control = Control(
    state: ServerState,
    connections: Table,
    nbConnected: nat,
    starts: seq<Table>,
    pushed: seq<(QueueId, SocketId)>)

  const INITIAL_CONTROL := Control(AcceptingNewActors, map[], 0, [], [])

  datatype Outcome =
    | Handled(next: Control, ack: CommandAck, dropClient: bool)
    | Refused(error: CommandError)

  function Launch(s: Control): Control {
    s.(state := SimulationRunning, starts := s.starts + [s.connections])
  }

  function Insert(m: Table, c: ActorConnection): Table {
    if c.actorId in m then m else m[c.actorId := c]
  }

  function HandleConnect(s: Control, id: int, issuer: SocketId): Outcome {
    if s.state.SimulationFinished? then Refused(WrongState)
    else if s.state.Killed? then Handled(s, CommandAck(false, NoInfo), true)
    else if id !in s.connections then Refused(UnknownActor(id))
    else if s.connections[id].socket.Some? then Refused(AlreadyConnected(id))
    else
      var entry := s.connections[id];
      var s1 := s.(connections := s.connections[id := entry.(socket := Some(issuer))], nbConnected := s.nbConnected + 1);
      if s.state.SimulationRunning? then
        if entry.connectAck.None? then Refused(NoConnectAck(id))
        else Handled(s1.(pushed := s.pushed + [(entry.connectAck.value, issuer)]), CommandAck(true, NoInfo), false)
      else if s.state.WaitingForAllActorsConnection? && s1.nbConnected == |s1.connections| then
        Handled(Launch(s1), CommandAck(true, NoInfo), false)
      else
        Handled(s1, CommandAck(true, NoInfo), false)
  }

  function HandleCommand(s: Control, c: Command, issuer: SocketId): Outcome {
    match c
    case AddActor(actorName, hostName) =>
      if s.state.Killed? then Handled(s, CommandAck(false, NoInfo), true)
      else if !s.state.AcceptingNewActors? then Refused(WrongState)
      else
        var id := |s.connections| + 2;
        Handled(s.(connections := Insert(s.connections, ActorConnection(actorName, hostName, id, None, None))),
                CommandAck(true, NewActor(id)), true)
    case Start =>
      if !s.state.AcceptingNewActors? then Refused(WrongState)
      else if s.nbConnected == |s.connections| then Handled(Launch(s), CommandAck(true, NoInfo), true)
      else Handled(s.(state := WaitingForAllActorsConnection), CommandAck(true, NoInfo), true)
    case Kill(_) => Handled(s.(state := Killed), CommandAck(true, NoInfo), true)
    case Status => Handled(s, CommandAck(true, NbConnected(s.nbConnected)), true)
    case Connect(id) => HandleConnect(s, id, issuer)
    case TypeNotSet => Refused(UnsetCommand)
  }

  /** The table part of an ACTOR_CREATE message from the SimGrid thread. */
  function HandleCreate(s: Control, id: int, connectAck: QueueId): Result<Control, CommandError> {
    if id in s.connections then Err(DuplicateActor(id))
    else Ok(s.(connections := Insert(s.connections, ActorConnection("unset", "unset", id, None, Some(connectAck)))))
  }

  // ----- invariant

  predicate IsInitialId(n: nat, id: int) {
    2 <= id < n + 2
  }

  function InitialIds(n: nat): set<int> {
    set id: int | 2 <= id < n + 2 && IsInitialId(n, id)
  }

  /** The keys are exactly 2 to |m| + 1. */
  ghost predicate Contiguous(m: Table) {
    forall id :: id in m <==> IsInitialId(|m|, id)
  }

  function ConnectedIds(m: Table): set<int> {
    set id | id in m && m[id].socket.Some?
  }

  ghost predicate ControlInv(s: Control) {
    && (forall id <- s.connections :: s.connections[id].actorId == id)
    && s.nbConnected == |ConnectedIds(s.connections)|
    && (s.state.AcceptingNewActors? || s.state.WaitingForAllActorsConnection? ==> s.starts == [])
    && (s.state.SimulationRunning? || s.state.SimulationFinished? ==> |s.starts| == 1)
    && |s.starts| <= 1
    && (s.state.WaitingForAllActorsConnection? ==> s.nbConnected < |s.connections|)
    && (s.starts == [] ==> Contiguous(s.connections))
    && (s.starts != [] ==>
          && Contiguous(s.starts[0])
          && (forall id <- s.starts[0] ::
                id in s.connections && s.connections[id] == s.starts[0][id] && s.starts[0][id].socket.Some?)
          && (forall id <- s.connections :: id !in s.starts[0] ==> s.connections[id].connectAck.Some?))
  }

  lemma AllConnected(m: Table)
    requires |ConnectedIds(m)| == |m|
    ensures forall id <- m :: m[id].socket.Some?
  {
    SubsetOfFullSize(ConnectedIds(m), m.Keys);
  }

  lemma SubsetOfFullSize(a: set<int>, b: set<int>)
    requires a <= b && |a| == |b|
    ensures a == b
  {
    assert b == a + (b - a);
    assert |b - a| == 0;
  }

  lemma SubsetIsSmaller(a: set<int>, b: set<int>)
    requires a <= b
    ensures |a| <= |b|
  {
    assert b == a + (b - a);
  }

  /** Each command keeps the invariant; the assertion about a missing `connect_ack` queue is never the
      reason of a refusal. */
  lemma HandleCommandKeepsInv(s: Control, c: Command, issuer: SocketId)
    requires ControlInv(s)
    ensures HandleCommand(s, c, issuer).Handled? ==> ControlInv(HandleCommand(s, c, issuer).next)
    ensures !(HandleCommand(s, c, issuer).Refused? && HandleCommand(s, c, issuer).error.NoConnectAck?)
  {
    match c
    case AddActor(_, _) =>
      if s.state.AcceptingNewActors? {
        var s1 := HandleCommand(s, c, issuer).next;
        assert ConnectedIds(s1.connections) == ConnectedIds(s.connections);
      }
    case Start =>
      if s.nbConnected == |s.connections| {
        AllConnected(s.connections);
      } else {
        SubsetIsSmaller(ConnectedIds(s.connections), s.connections.Keys);
      }
    case Connect(id) => ConnectKeepsInv(s, id, issuer);
    case _ =>
  }

  lemma ConnectKeepsInv(s: Control, id: int, issuer: SocketId)
    requires ControlInv(s)
    ensures HandleConnect(s, id, issuer).Handled? ==> ControlInv(HandleConnect(s, id, issuer).next)
    ensures !(HandleConnect(s, id, issuer).Refused? && HandleConnect(s, id, issuer).error.NoConnectAck?)
  {
    if HandleConnect(s, id, issuer).Handled? && !s.state.Killed? {
      var m := s.connections[id := s.connections[id].(socket := Some(issuer))];
      OneMoreConnected(s.connections, id, issuer);
      hide ConnectedIds;
      if |ConnectedIds(m)| == |m| {
        AllConnected(m);
      }
    }
  }

  lemma OneMoreConnected(m: Table, id: int, issuer: SocketId)
    requires id in m && m[id].socket.None?
    ensures var next := m[id := m[id].(socket := Some(issuer))];
            next.Keys == m.Keys && |next| == |m| && |ConnectedIds(next)| == |ConnectedIds(m)| + 1 && |ConnectedIds(next)| <= |m|
  {
    var next := m[id := m[id].(socket := Some(issuer))];
    assert next.Keys == m.Keys;
    assert |next| == |next.Keys| == |m.Keys|;
    assert ConnectedIds(next) == ConnectedIds(m) + {id};
    SubsetIsSmaller(ConnectedIds(next), next.Keys);
  }

  /** A message about a new pid keeps it too, and is refused exactly when the pid is already known. */
  lemma HandleCreateKeepsInv(s: Control, id: int, connectAck: QueueId)
    requires ControlInv(s) && s.starts != []
    ensures HandleCreate(s, id, connectAck).Ok? <==> id !in s.connections
    ensures HandleCreate(s, id, connectAck).Ok? ==> ControlInv(HandleCreate(s, id, connectAck).value)
  {
    if id !in s.connections {
      var s1 := HandleCreate(s, id, connectAck).value;
      assert ConnectedIds(s1.connections) == ConnectedIds(s.connections);
      assert |s1.connections| == |s.connections| + 1;
    }
  }
}
