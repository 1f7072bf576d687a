/** The three-party protocol that creates actors while a simulation runs, as a transition system.
    The parties are the client threads, the SimGrid thread, on which all simulated actors take turns,
    and the command thread. They are joined by the FIFO queue `to_command`, by one `can_connect_ack`
    and one `connect_ack` queue per created actor, by one semaphore per created thread, and by one
    request/reply socket per actor.

    SimGrid enters through these assumptions: actors run one at a time and switch only at simcalls;
    every runnable actor runs once per round; an actor created by a simcall becomes runnable together
    with its creator; pids come from a counter. Every violated assertion of the source sets
    `failed`. */
module CreationProtocol {
  import opened Wrappers

  type Pid = int

  /** What a client asks. `Get` is a blocking mailbox reception, `Other` any further request. */
  datatype Decision = Create | Get | Quit | Other

  datatype DecisionAck = DecisionAck(answers: Decision, child: Pid)

  /** Messages the command thread pushes to actors. */
  datatype ActorMessage = ActorCreateAck | ActorConnected

  /** Messages the SimGrid thread pushes to the command thread. */
  datatype CommandMessage = ActorCreate(id: Pid) | ActorQuit(id: Pid) | SimulationFinished

  /** Where the server-side code of an actor is. */
  datatype SimPhase =
    | Fresh
    | Yielded
    | SpinConnect
    | Reading
    | Handling(decision: Decision)
    | Suspended(decision: Decision)
    | CreateIssued(child: Pid)
    | SpinCreateAck(child: Pid)
    | Done

  /** Where the client of an actor is. `BeforeConnect`, `Connecting` and `AfterConnect` cover the two
      connection hooks of `Actor::create` and the connection between them; `HookAwait` is the second hook
      while it waits for the reply to a request of its own. */
  datatype ClientPhase =
    | Unborn
    | BeforeConnect
    | Connecting
    | AfterConnect
    | HookAwait(decision: Decision)
    | Posted
    | User
    | AwaitAck(decision: Decision)
    | GotId(child: Pid)
    | WaitSem(child: Pid)
    | Gone

  /** The command thread's table entry: absent, waiting for its client, or holding its socket. */
  datatype TableEntry = Unknown | Expected | Linked

  datatype Actor = Actor(
    dynamic: bool,
    parent: Pid,
    threaded: bool,
    sim: SimPhase,
    client: ClientPhase,
    entry: TableEntry,
    connectPending: bool,
    canConnectAck: seq<ActorMessage>,
    connectAck: seq<ActorMessage>,
    semaphore: nat,
    sent: seq<Decision>,
    read: nat,
    acks: seq<DecisionAck>,
    received: nat)

  datatype World = World(
    actors: map<Pid, Actor>,
    toCommand: seq<CommandMessage>,
    toRun: set<Pid>,
    ready: set<Pid>,
    current: Option<Pid>,
    nextPid: Pid,
    dropped: set<Pid>,
    maestroDone: bool,
    finished: bool,
    failed: bool)

  datatype Step =
    // SimGrid scheduling
    | NextRound
    | Schedule(p: Pid)
    | Wake(p: Pid)
    | MaestroFinish
    // server-side actor code
    | ReadDecision(p: Pid)
    | Simcall(p: Pid, blocking: bool)
    | Answer(p: Pid)
    | IssueCreate(p: Pid)
    | QuitActor(p: Pid)
    | PopCreateAck(p: Pid)
    | PopConnectAck(p: Pid)
    // command thread
    | CommandPop
    | CommandConnect(p: Pid)
    // clients
    | SendDecision(p: Pid, decision: Decision)
    | ReceiveAck(p: Pid)
    | Launch(p: Pid, threaded: bool)
    | SendConnect(p: Pid)
    | ConnectDone(p: Pid)
    | HookRequest(p: Pid, decision: Decision)
    | HookReply(p: Pid)
    | PostSemaphore(p: Pid)
    | SemWait(p: Pid)

  // ----- acknowledgments of one decision

  /** Written by `handle_decision` itself. */
  function OwnAcks(d: Decision, child: Pid): seq<DecisionAck> {
    if d.Create? || d.Get? then [DecisionAck(d, child)] else []
  }

  /** The `send_ack` flag it returns. */
  predicate SendAck(d: Decision) {
    !d.Quit? && !d.Create? && !d.Get?
  }

  /** All that one turn of the request-reply loop writes. */
  function AcksFor(d: Decision, child: Pid): (acks: seq<DecisionAck>)
    ensures acks == if d.Quit? then [] else [DecisionAck(d, child)]
  {
    OwnAcks(d, child) + if SendAck(d) then [DecisionAck(d, child)] else []
  }

  // ----- initial state

  function InitialActor(): Actor {
    Actor(false, 0, false, Fresh, User, Linked, false, [], [], 0, [], 0, [], 0)
  }

  predicate InitialPid(n: nat, p: Pid) {
    2 <= p < n + 2
  }

  /** `n` connected initial actors, pids 2 to n + 1, all runnable in the first round. */
  function Init(n: nat): World {
    var pids := set p: Pid | 2 <= p < n + 2 && InitialPid(n, p);
    World(map p | p in pids :: InitialActor(), [], {}, pids, None, n + 2, {}, false, false, false)
  }

  // ----- transitions

  function Put(w: World, p: Pid, a: Actor): World {
    w.(actors := w.actors[p := a])
  }

  predicate InSim(w: World, p: Pid, phase: SimPhase) {
    p in w.actors && w.actors[p].sim == phase
  }

  predicate AllDone(w: World) {
    forall p <- w.actors :: w.actors[p].sim.Done?
  }

  predicate CanStartRound(w: World) {
    w.current.None? && w.toRun == {} && w.ready != {}
  }

  function StartRound(w: World): World {
    w.(toRun := w.ready, ready := {})
  }

  predicate CanResume(w: World, p: Pid) {
    w.current.None? && p in w.toRun && p in w.actors
  }

  /** Resumes an actor up to its next blocking point. A dynamic actor that runs for the first time
      only yields; one that returns from `Actor::create` announces its child. */
  function Resume(w: World, p: Pid): World
    requires CanResume(w, p)
  {
    var a := w.actors[p];
    var w1 := w.(toRun := w.toRun - {p}, current := Some(p));
    match a.sim
    case Fresh =>
      if a.dynamic then Put(w.(toRun := w.toRun - {p}, ready := w.ready + {p}), p, a.(sim := Yielded))
      else Put(w1, p, a.(sim := Reading))
    case Yielded => Put(w1, p, a.(sim := SpinConnect))
    case Suspended(d) => Put(w1, p, a.(sim := Handling(d)))
    case CreateIssued(c) => Put(w1, p, a.(sim := SpinCreateAck(c))).(toCommand := w.toCommand + [ActorCreate(c)])
    case _ => w
  }

  predicate CanWake(w: World, p: Pid) {
    w.current.None? && p in w.actors && w.actors[p].sim.Suspended? && p !in w.toRun && p !in w.ready
  }

  function WakeUp(w: World, p: Pid): World {
    w.(ready := w.ready + {p})
  }

  /** The engine returns when no actor is left; the maestro then says so. */
  predicate CanFinish(w: World) {
    w.current.None? && w.toRun == {} && w.ready == {} && AllDone(w) && !w.maestroDone
  }

  function Finish(w: World): World {
    w.(toCommand := w.toCommand + [SimulationFinished], maestroDone := true)
  }

  predicate CanRead(w: World, p: Pid) {
    InSim(w, p, Reading) && w.actors[p].read < |w.actors[p].sent|
  }

  function Read(w: World, p: Pid): World
    requires CanRead(w, p)
  {
    var a := w.actors[p];
    Put(w, p, a.(sim := Handling(a.sent[a.read]), read := a.read + 1))
  }

  predicate CanSuspend(w: World, p: Pid) {
    p in w.actors && w.actors[p].sim.Handling?
  }

  /** Any simcall made while handling a decision: the think time, or the simulated operation. */
  function Suspend(w: World, p: Pid, blocking: bool): World
    requires CanSuspend(w, p)
  {
    var a := w.actors[p];
    Put(w, p, a.(sim := Suspended(a.sim.decision)))
    .(ready := if blocking then w.ready else w.ready + {p}, current := None)
  }

  predicate CanReply(w: World, p: Pid) {
    InSim(w, p, Handling(Get)) || InSim(w, p, Handling(Other))
  }

  function Reply(w: World, p: Pid): World
    requires CanReply(w, p)
  {
    var a := w.actors[p];
    Put(w, p, a.(sim := Reading, acks := a.acks + AcksFor(a.sim.decision, 0)))
  }

  /** The `Actor::create` simcall: a new pid, and creator and child runnable together. */
  function CreateActor(w: World, p: Pid): World
    requires InSim(w, p, Handling(Create))
  {
    var c := w.nextPid;
    var child := Actor(true, p, false, Fresh, Unborn, Unknown, false, [], [], 0, [], 0, [], 0);
    Put(Put(w, p, w.actors[p].(sim := CreateIssued(c))), c, child)
    .(nextPid := c + 1, ready := w.ready + {p, c}, current := None)
  }

  function QuitLoop(w: World, p: Pid): World
    requires InSim(w, p, Handling(Quit))
  {
    var a := w.actors[p];
    Put(w, p, a.(sim := Done, acks := a.acks + AcksFor(Quit, 0)))
    .(toCommand := w.toCommand + [ActorQuit(p)], current := None)
  }

  predicate CanFinishCreate(w: World, p: Pid) {
    && p in w.actors && w.actors[p].sim.SpinCreateAck? && w.actors[p].sim.child in w.actors
    && w.actors[w.actors[p].sim.child].canConnectAck != []
  }

  function FinishCreate(w: World, p: Pid): World
    requires CanFinishCreate(w, p)
  {
    var a := w.actors[p];
    var c := a.sim.child;
    var child := w.actors[c];
    var w1 := Put(w, c, child.(canConnectAck := child.canConnectAck[1..]));
    Put(w1, p, a.(sim := Reading, acks := a.acks + AcksFor(Create, c)))
    .(failed := w.failed || !child.canConnectAck[0].ActorCreateAck?)
  }

  predicate CanFinishConnect(w: World, p: Pid) {
    InSim(w, p, SpinConnect) && w.actors[p].connectAck != []
  }

  function FinishConnect(w: World, p: Pid): World
    requires CanFinishConnect(w, p)
  {
    var a := w.actors[p];
    Put(w, p, a.(sim := Reading, connectAck := a.connectAck[1..]))
    .(failed := w.failed || !a.connectAck[0].ActorConnected?)
  }

  predicate CanPop(w: World) {
    w.toCommand != [] && !w.finished
  }

  /** One interthread message handled by the command thread. */
  function Pop(w: World): World
    requires CanPop(w)
  {
    var w1 := w.(toCommand := w.toCommand[1..]);
    match w.toCommand[0]
    case ActorCreate(c) =>
      if c !in w.actors then w1.(failed := true)
      else
        var a := w.actors[c];
        Put(w1, c, a.(entry := Expected, canConnectAck := a.canConnectAck + [ActorCreateAck]))
        .(failed := w.failed || !a.entry.Unknown?)
    case ActorQuit(p) => w1.(dropped := w.dropped + {p}, failed := w.failed || p in w.dropped)
    case SimulationFinished => w1.(finished := true)
  }

  predicate CanLink(w: World, p: Pid) {
    p in w.actors && w.actors[p].connectPending && !w.finished
  }

  /** A CONNECT command handled while the simulation runs. */
  function Link(w: World, p: Pid): World
    requires CanLink(w, p)
  {
    var a := w.actors[p];
    Put(w, p, a.(entry := Linked, connectPending := false, connectAck := a.connectAck + [ActorConnected]))
    .(failed := w.failed || !a.entry.Expected?)
  }

  /** User code may send anything; the wrapper of a created thread first sends a yield. */
  predicate CanSend(w: World, p: Pid, d: Decision) {
    p in w.actors && (w.actors[p].client.User? || (w.actors[p].client.Posted? && d.Other?))
  }

  function Send(w: World, p: Pid, d: Decision): World
    requires CanSend(w, p, d)
  {
    var a := w.actors[p];
    Put(w, p, a.(client := if d.Quit? then Gone else AwaitAck(d), sent := a.sent + [d]))
  }

  predicate CanReceive(w: World, p: Pid) {
    p in w.actors && w.actors[p].client.AwaitAck? && w.actors[p].received < |w.actors[p].acks|
  }

  function Receive(w: World, p: Pid): World
    requires CanReceive(w, p)
  {
    var a := w.actors[p];
    Put(w, p, a.(client := if a.client.decision.Create? then GotId(a.acks[a.received].child) else User,
                 received := a.received + 1))
  }

  predicate CanLaunch(w: World, p: Pid) {
    p in w.actors && w.actors[p].client.GotId? && w.actors[p].client.child in w.actors
  }

  /** `Actor::create` starts a thread and waits on the semaphore; `Actor::fork` goes on at once. */
  function LaunchChild(w: World, p: Pid, threaded: bool): World
    requires CanLaunch(w, p)
  {
    var a := w.actors[p];
    var c := a.client.child;
    Put(Put(w, c, w.actors[c].(client := BeforeConnect, threaded := threaded)), p,
        a.(client := if threaded then WaitSem(c) else User))
  }

  predicate InClient(w: World, p: Pid, phase: ClientPhase) {
    p in w.actors && w.actors[p].client == phase
  }

  function AskConnect(w: World, p: Pid): World
    requires InClient(w, p, BeforeConnect)
  {
    Put(w, p, w.actors[p].(client := Connecting, connectPending := true))
  }

  predicate CanEndConnect(w: World, p: Pid) {
    InClient(w, p, Connecting) && !w.actors[p].connectPending
  }

  function EndConnect(w: World, p: Pid): World
    requires CanEndConnect(w, p)
  {
    var a := w.actors[p];
    Put(w, p, a.(client := if a.threaded then AfterConnect else User))
  }

  /** The connection is open in the second hook, which may use the library like any user code. */
  predicate CanAskInHook(w: World, p: Pid, d: Decision) {
    InClient(w, p, AfterConnect) && !d.Quit?
  }

  function AskInHook(w: World, p: Pid, d: Decision): World
    requires CanAskInHook(w, p, d)
  {
    var a := w.actors[p];
    Put(w, p, a.(client := HookAwait(d), sent := a.sent + [d]))
  }

  predicate CanLearnInHook(w: World, p: Pid) {
    p in w.actors && w.actors[p].client.HookAwait? && w.actors[p].received < |w.actors[p].acks|
  }

  function LearnInHook(w: World, p: Pid): World
    requires CanLearnInHook(w, p)
  {
    var a := w.actors[p];
    Put(w, p, a.(client := AfterConnect, received := a.received + 1))
  }

  function Post(w: World, p: Pid): World
    requires InClient(w, p, AfterConnect)
  {
    var a := w.actors[p];
    Put(w, p, a.(client := Posted, semaphore := a.semaphore + 1))
  }

  predicate CanEndWait(w: World, p: Pid) {
    && p in w.actors && w.actors[p].client.WaitSem? && w.actors[p].client.child in w.actors
    && w.actors[w.actors[p].client.child].semaphore > 0
  }

  function EndWait(w: World, p: Pid): World
    requires CanEndWait(w, p)
  {
    var a := w.actors[p];
    var c := a.client.child;
    Put(Put(w, c, w.actors[c].(semaphore := w.actors[c].semaphore - 1)), p, a.(client := User))
  }

  // ----- runs

  predicate Enabled(w: World, s: Step) {
    match s
    case NextRound => CanStartRound(w)
    case Schedule(p) => CanResume(w, p)
    case Wake(p) => CanWake(w, p)
    case MaestroFinish => CanFinish(w)
    case ReadDecision(p) => CanRead(w, p)
    case Simcall(p, _) => CanSuspend(w, p)
    case Answer(p) => CanReply(w, p)
    case IssueCreate(p) => InSim(w, p, Handling(Create))
    case QuitActor(p) => InSim(w, p, Handling(Quit))
    case PopCreateAck(p) => CanFinishCreate(w, p)
    case PopConnectAck(p) => CanFinishConnect(w, p)
    case CommandPop => CanPop(w)
    case CommandConnect(p) => CanLink(w, p)
    case SendDecision(p, d) => CanSend(w, p, d)
    case ReceiveAck(p) => CanReceive(w, p)
    case Launch(p, _) => CanLaunch(w, p)
    case SendConnect(p) => InClient(w, p, BeforeConnect)
    case ConnectDone(p) => CanEndConnect(w, p)
    case HookRequest(p, d) => CanAskInHook(w, p, d)
    case HookReply(p) => CanLearnInHook(w, p)
    case PostSemaphore(p) => InClient(w, p, AfterConnect)
    case SemWait(p) => CanEndWait(w, p)
  }

  function Apply(w: World, s: Step): World
    requires Enabled(w, s)
  {
    match s
    case NextRound => StartRound(w)
    case Schedule(p) => Resume(w, p)
    case Wake(p) => WakeUp(w, p)
    case MaestroFinish => Finish(w)
    case ReadDecision(p) => Read(w, p)
    case Simcall(p, blocking) => Suspend(w, p, blocking)
    case Answer(p) => Reply(w, p)
    case IssueCreate(p) => CreateActor(w, p)
    case QuitActor(p) => QuitLoop(w, p)
    case PopCreateAck(p) => FinishCreate(w, p)
    case PopConnectAck(p) => FinishConnect(w, p)
    case CommandPop => Pop(w)
    case CommandConnect(p) => Link(w, p)
    case SendDecision(p, d) => Send(w, p, d)
    case ReceiveAck(p) => Receive(w, p)
    case Launch(p, threaded) => LaunchChild(w, p, threaded)
    case SendConnect(p) => AskConnect(w, p)
    case ConnectDone(p) => EndConnect(w, p)
    case HookRequest(p, d) => AskInHook(w, p, d)
    case HookReply(p) => LearnInHook(w, p)
    case PostSemaphore(p) => Post(w, p)
    case SemWait(p) => EndWait(w, p)
  }

  /** A run: every step is enabled where it is taken. */
  predicate IsRun(w: World, steps: seq<Step>)
    decreases |steps|
  {
    steps == [] || (Enabled(w, steps[0]) && IsRun(Apply(w, steps[0]), steps[1..]))
  }

  function After(w: World, steps: seq<Step>): World
    requires IsRun(w, steps)
    decreases |steps|
  {
    if steps == [] then w else After(Apply(w, steps[0]), steps[1..])
  }
}
