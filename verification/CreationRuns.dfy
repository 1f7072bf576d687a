/** Concrete runs of the creation protocol: a simulation of one actor that ends, and one in which the initial
    actor creates another, whose second connection hook uses the library. Nobody moves any more then. */
module CreationRuns {
  import opened Wrappers
  import opened CreationProtocol

  lemma {:induction false} OneMoreStep(w0: World, run: seq<Step>, s: Step)
    requires IsRun(w0, run) && Enabled(After(w0, run), s)
    ensures IsRun(w0, run + [s]) && After(w0, run + [s]) == Apply(After(w0, run), s)
    decreases |run|
  {
    if run == [] {
      assert run + [s] == [s] && [s][1..] == [];
    } else {
      assert (run + [s])[1..] == run[1..] + [s];
      OneMoreStep(Apply(w0, run[0]), run[1..], s);
    }
  }

  /** The run so far has reached `w`. */
  ghost predicate Reaches(run: seq<Step>, w: World) {
    IsRun(Init(1), run) && After(Init(1), run) == w
  }

  lemma Then(run: seq<Step>, w: World, s: Step, w': World) returns (next: seq<Step>)
    requires Reaches(run, w) && Enabled(w, s) && Apply(w, s) == w'
    ensures next == run + [s] && Reaches(next, w')
  {
    OneMoreStep(Init(1), run, s);
    next := run + [s];
  }

  // ----- the two actors

  function Creator(sim: SimPhase, client: ClientPhase, sent: seq<Decision>, read: nat, acks: seq<DecisionAck>, received: nat)
    : Actor
  {
    Actor(false, 0, false, sim, client, Linked, false, [], [], 0, sent, read, acks, received)
  }

  function Child(sim: SimPhase, client: ClientPhase, entry: TableEntry, pending: bool, canConnectAck: seq<ActorMessage>,
                 connectAck: seq<ActorMessage>): Actor
  {
    Actor(true, 2, !client.Unborn?, sim, client, entry, pending, canConnectAck, connectAck, 0, [], 0, [], 0)
  }

  function Alone(a: Actor, toRun: set<Pid>, ready: set<Pid>, current: Option<Pid>): World {
    World(map[2 := a], [], toRun, ready, current, 3, {}, false, false, false)
  }

  function Both(a: Actor, b: Actor, toCommand: seq<CommandMessage>, toRun: set<Pid>, ready: set<Pid>, current: Option<Pid>)
    : World
  {
    World(map[2 := a, 3 := b], toCommand, toRun, ready, current, 4, {}, false, false, false)
  }

  /** The initial actor quits at once, and the simulation ends. */
  lemma OneActorQuits() returns (run: seq<Step>)
    ensures IsRun(Init(1), run) && After(Init(1), run).finished
  {
    var a: Actor;
    run, a := HandleQuit();
    var done := a.(sim := Done);
    assert [] + AcksFor(Quit, 0) == [];
    var w := Alone(a, {}, {}, Some(2));
    var w1 := Alone(done, {}, {}, None).(toCommand := [ActorQuit(2)]);
    run := Then(run, w, QuitActor(2), w1);
    var w2 := Alone(done, {}, {}, None).(dropped := {2});
    assert [ActorQuit(2)][1..] == [];
    run := Then(run, w1, CommandPop, w2);
    run := EndOfAll(run, w2);
  }

  lemma HandleQuit() returns (run: seq<Step>, a: Actor)
    ensures a == Creator(Handling(Quit), Gone, [Quit], 1, [], 0)
    ensures Reaches(run, Alone(a, {}, {}, Some(2)))
  {
    run := FirstTurn();
    var a1 := Creator(Reading, Gone, [Quit], 0, [], 0);
    assert [] + [Quit] == [Quit];
    run := Then(run, Alone(Creator(Reading, User, [], 0, [], 0), {}, {}, Some(2)), SendDecision(2, Quit),
                Alone(a1, {}, {}, Some(2)));
    a := Creator(Handling(Quit), Gone, [Quit], 1, [], 0);
    run := Then(run, Alone(a1, {}, {}, Some(2)), ReadDecision(2), Alone(a, {}, {}, Some(2)));
  }

  lemma EndOfAll(run: seq<Step>, w: World) returns (next: seq<Step>)
    requires Reaches(run, w) && CanFinish(w) && w.toCommand == [] && !w.finished
    ensures IsRun(Init(1), next) && After(Init(1), next).finished
  {
    var w1 := Finish(w);
    next := Then(run, w, MaestroFinish, w1);
    next := Then(next, w1, CommandPop, Pop(w1));
  }

  /** SimGrid gives the initial actor its turn. */
  lemma FirstTurn() returns (run: seq<Step>)
    ensures Reaches(run, Alone(Creator(Reading, User, [], 0, [], 0), {}, {}, Some(2)))
  {
    var w0 := Alone(Creator(Fresh, User, [], 0, [], 0), {}, {2}, None);
    assert InitialPid(1, 2);
    assert Init(1).actors == w0.actors;
    run := [];
    var w1 := Alone(Creator(Fresh, User, [], 0, [], 0), {2}, {}, None);
    run := Then(run, w0, NextRound, w1);
    run := Then(run, w1, Schedule(2), Alone(Creator(Reading, User, [], 0, [], 0), {}, {}, Some(2)));
  }

  /** The initial actor asks for a new one. */
  lemma AskCreation() returns (run: seq<Step>)
    ensures Reaches(run, Alone(Creator(Handling(Create), AwaitAck(Create), [Create], 1, [], 0), {}, {}, Some(2)))
  {
    run := FirstTurn();
    var w2 := Alone(Creator(Reading, User, [], 0, [], 0), {}, {}, Some(2));
    var w3 := Alone(Creator(Reading, AwaitAck(Create), [Create], 0, [], 0), {}, {}, Some(2));
    assert [] + [Create] == [Create];
    run := Then(run, w2, SendDecision(2, Create), w3);
    run := Then(run, w3, ReadDecision(2),
                Alone(Creator(Handling(Create), AwaitAck(Create), [Create], 1, [], 0), {}, {}, Some(2)));
  }

  /** SimGrid and the command thread do their part. */
  lemma AnnounceCreation() returns (run: seq<Step>)
    ensures Reaches(run, Both(Creator(SpinCreateAck(3), AwaitAck(Create), [Create], 1, [], 0),
                              Child(Fresh, Unborn, Expected, false, [ActorCreateAck], []), [], {3}, {}, Some(2)))
  {
    run := AskCreation();
    var a1 := Creator(CreateIssued(3), AwaitAck(Create), [Create], 1, [], 0);
    var b1 := Child(Fresh, Unborn, Unknown, false, [], []);
    run := Then(run, Alone(Creator(Handling(Create), AwaitAck(Create), [Create], 1, [], 0), {}, {}, Some(2)), IssueCreate(2),
                Both(a1, b1, [], {}, {2, 3}, None));
    run := Then(run, Both(a1, b1, [], {}, {2, 3}, None), NextRound, Both(a1, b1, [], {2, 3}, {}, None));
    var a2 := Creator(SpinCreateAck(3), AwaitAck(Create), [Create], 1, [], 0);
    run := Then(run, Both(a1, b1, [], {2, 3}, {}, None), Schedule(2), Both(a2, b1, [ActorCreate(3)], {3}, {}, Some(2)));
    assert [ActorCreate(3)][1..] == [];
    assert [] + [ActorCreateAck] == [ActorCreateAck];
    run := Then(run, Both(a2, b1, [ActorCreate(3)], {3}, {}, Some(2)), CommandPop,
                Both(a2, Child(Fresh, Unborn, Expected, false, [ActorCreateAck], []), [], {3}, {}, Some(2)));
  }

  lemma AcknowledgeCreation() returns (run: seq<Step>)
    ensures Reaches(run, Both(Creator(Reading, AwaitAck(Create), [Create], 1, [DecisionAck(Create, 3)], 0),
                              Child(Fresh, Unborn, Expected, false, [], []), [], {3}, {}, Some(2)))
  {
    run := AnnounceCreation();
    var w := Both(Creator(SpinCreateAck(3), AwaitAck(Create), [Create], 1, [], 0),
                  Child(Fresh, Unborn, Expected, false, [ActorCreateAck], []), [], {3}, {}, Some(2));
    assert [ActorCreateAck][1..] == [];
    assert [] + AcksFor(Create, 3) == [DecisionAck(Create, 3)];
    var w1 := Apply(w, PopCreateAck(2));
    assert w1.actors[3] == Child(Fresh, Unborn, Expected, false, [], []);
    assert w1.actors[2] == Creator(Reading, AwaitAck(Create), [Create], 1, [DecisionAck(Create, 3)], 0);
    run := Then(run, w, PopCreateAck(2), w1);
  }

  /** The creator's client learns the id and starts a thread. */
  lemma LaunchThread() returns (run: seq<Step>)
    ensures Reaches(run, Both(Creator(Reading, WaitSem(3), [Create], 1, [DecisionAck(Create, 3)], 1),
                              Child(Fresh, BeforeConnect, Expected, false, [], []), [], {3}, {}, Some(2)))
  {
    run := AcknowledgeCreation();
    var acks := [DecisionAck(Create, 3)];
    var b := Child(Fresh, Unborn, Expected, false, [], []);
    run := Then(run, Both(Creator(Reading, AwaitAck(Create), [Create], 1, acks, 0), b, [], {3}, {}, Some(2)),
                ReceiveAck(2), Both(Creator(Reading, GotId(3), [Create], 1, acks, 1), b, [], {3}, {}, Some(2)));
    run := Then(run, Both(Creator(Reading, GotId(3), [Create], 1, acks, 1), b, [], {3}, {}, Some(2)), Launch(2, true),
                Both(Creator(Reading, WaitSem(3), [Create], 1, acks, 1),
                     Child(Fresh, BeforeConnect, Expected, false, [], []), [], {3}, {}, Some(2)));
  }

  /** The thread connects, and is in its second hook. */
  lemma ConnectChild() returns (run: seq<Step>)
    ensures Reaches(run, Both(Creator(Reading, WaitSem(3), [Create], 1, [DecisionAck(Create, 3)], 1),
                              Child(Fresh, AfterConnect, Linked, false, [], [ActorConnected]), [], {3}, {}, Some(2)))
  {
    run := LaunchThread();
    var a := Creator(Reading, WaitSem(3), [Create], 1, [DecisionAck(Create, 3)], 1);
    var b0 := Child(Fresh, BeforeConnect, Expected, false, [], []);
    var b1 := Child(Fresh, Connecting, Expected, true, [], []);
    run := Then(run, Both(a, b0, [], {3}, {}, Some(2)), SendConnect(3), Both(a, b1, [], {3}, {}, Some(2)));
    var b2 := Child(Fresh, Connecting, Linked, false, [], [ActorConnected]);
    assert [] + [ActorConnected] == [ActorConnected];
    run := Then(run, Both(a, b1, [], {3}, {}, Some(2)), CommandConnect(3), Both(a, b2, [], {3}, {}, Some(2)));
    run := Then(run, Both(a, b2, [], {3}, {}, Some(2)), ConnectDone(3),
                Both(a, Child(Fresh, AfterConnect, Linked, false, [], [ActorConnected]), [], {3}, {}, Some(2)));
  }

  /** The hook then asks anything of the server: nobody can move any more. The creator waits for the
      semaphore, the hook for a reply, and the SimGrid thread for the next request of the creator. */
  lemma HookRequestBlocksEveryone(d: Decision) returns (run: seq<Step>)
    requires !d.Quit?
    ensures IsRun(Init(1), run) && HookRequest(3, d) in run
    ensures !After(Init(1), run).finished && forall s :: !Enabled(After(Init(1), run), s)
  {
    run := ConnectChild();
    var a := Creator(Reading, WaitSem(3), [Create], 1, [DecisionAck(Create, 3)], 1);
    var b := Child(Fresh, AfterConnect, Linked, false, [], [ActorConnected]);
    var w := Both(a, b.(client := HookAwait(d), sent := [d]), [], {3}, {}, Some(2));
    assert b.sent + [d] == [d];
    run := Then(run, Both(a, b, [], {3}, {}, Some(2)), HookRequest(3, d), w);
    NobodyMoves(w);
  }

  lemma NobodyMoves(w: World)
    requires w.actors.Keys == {2, 3} && w.current == Some(2) && w.toCommand == []
    requires InSim(w, 2, Reading) && !CanRead(w, 2) && InClient(w, 2, WaitSem(3)) && !w.actors[2].connectPending
    requires InSim(w, 3, Fresh) && w.actors[3].client.HookAwait? && w.actors[3].acks == []
    requires !w.actors[3].connectPending && w.actors[3].semaphore == 0
    ensures forall s :: !Enabled(w, s)
  {
  }
}
