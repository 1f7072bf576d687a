/** What the creation protocol guarantees, over every run from every number of initial actors. */
module CreationTheorems {
  import opened Wrappers
  import opened CreationProtocol
  import opened CreationInvariant
  import opened CreationSteps

  lemma Reached(n: nat, steps: seq<Step>)
    requires IsRun(Init(n), steps)
    ensures Inv(After(Init(n), steps))
  {
    InitInv(n);
    RunKeepsInv(Init(n), steps);
  }

  /** No protocol assertion ever fails: no duplicate id in the table, no CONNECT from an unknown or
      already connected actor, no message of the wrong type on an acknowledgment queue, no socket
      dropped twice. */
  lemma NoAssertionFails(n: nat, steps: seq<Step>)
    requires IsRun(Init(n), steps)
    ensures !After(Init(n), steps).failed
  {
    Reached(n, steps);
  }

  /** The k-th acknowledgment answers the k-th decision, a quit is never acknowledged, and a client
      never has more than one decision outstanding. */
  lemma Lockstep(n: nat, steps: seq<Step>, p: Pid)
    requires IsRun(Init(n), steps) && p in After(Init(n), steps).actors
    ensures var a := After(Init(n), steps).actors[p];
            && a.received <= |a.acks| <= |a.sent| <= a.received + 1
            && (forall k | 0 <= k < |a.acks| :: a.acks[k].answers == a.sent[k] && !a.sent[k].Quit?)
            && (a.sim.Done? ==> |a.sent| == |a.acks| + 1 && a.sent[|a.acks|] == Quit)
  {
    Reached(n, steps);
    assert CountersOk(After(Init(n), steps).actors[p]);
  }

  /** The client runs user code after an acknowledgment, or runs it, or connects, on a thread that
      `Actor::create` made. Left out are only the clients of initial actors and of forked processes
      before their first acknowledgment. */
  predicate RunsUserCode(a: Actor) {
    (a.client.User? && (a.received > 0 || a.threaded)) || Hooking(a)
  }

  /** The actor whose turn makes such a client possible. */
  function Holder(w: World, p: Pid): (h: Pid)
    requires p in w.actors
  {
    if Hooking(w.actors[p]) then w.actors[p].parent else p
  }

  lemma HolderReads(w: World, p: Pid)
    requires Inv(w) && p in w.actors && RunsUserCode(w.actors[p])
    ensures w.current == Some(Holder(w, p))
    ensures Hooking(w.actors[p]) ==> ClaimOf(w.actors[Holder(w, p)]) == Waiting(p)
  {
    Parts(w, p);
    if Hooking(w.actors[p]) {
      Parts(w, w.actors[p].parent);
    }
  }

  /** User code runs under mutual exclusion. */
  lemma MutualExclusion(n: nat, steps: seq<Step>, p: Pid, q: Pid)
    requires IsRun(Init(n), steps)
    requires var w := After(Init(n), steps);
             p in w.actors && q in w.actors && RunsUserCode(w.actors[p]) && RunsUserCode(w.actors[q])
    ensures p == q
  {
    var w := After(Init(n), steps);
    Reached(n, steps);
    HolderReads(w, p);
    HolderReads(w, q);
  }

  /** A thread made by `Actor::create` never runs its hooks or its code while the user code of its
      creator runs. */
  lemma ThreadNeverOverlapsCreator(n: nat, steps: seq<Step>, c: Pid)
    requires IsRun(Init(n), steps)
    requires var w := After(Init(n), steps);
             c in w.actors && w.actors[c].dynamic && RunsUserCode(w.actors[c]) && w.actors[c].threaded
    ensures var w := After(Init(n), steps);
            w.actors[c].parent in w.actors && !w.actors[w.actors[c].parent].client.User?
  {
    var w := After(Init(n), steps);
    var p := w.actors[c].parent;
    Reached(n, steps);
    HolderReads(w, c);
    assert FamilyAt(w, c);
    if w.actors[p].client.User? {
      HolderReads(w, p);
    }
  }

  /** The SimGrid thread never starts spinning on a child's `connect_ack` before the command thread
      has acknowledged ACTOR_CREATE and the creator's client owns the id. For a thread made by
      `Actor::create` the awaited message is even there already. */
  lemma SpinStartsAfterIdIsOwned(n: nat, steps: seq<Step>, c: Pid)
    requires IsRun(Init(n), steps) && InSim(After(Init(n), steps), c, SpinConnect)
    ensures var a := After(Init(n), steps).actors[c];
            && !a.client.Unborn? && !a.entry.Unknown?
            && (a.threaded ==> a.connectAck == [ActorConnected])
  {
    var w := After(Init(n), steps);
    Reached(n, steps);
    Parts(w, c);
    if Hooking(w.actors[c]) {
      HolderReads(w, c);
    }
  }

  /** When the SimGrid thread spins on a `connect_ack`, the client library and the command thread
      alone end the wait, in at most two steps. */
  lemma ConnectSpinEnds(n: nat, steps: seq<Step>, c: Pid) returns (help: seq<Step>)
    requires IsRun(Init(n), steps) && InSim(After(Init(n), steps), c, SpinConnect)
    ensures |help| <= 2 && forall s <- help :: s == SendConnect(c) || s == CommandConnect(c)
    ensures IsRun(After(Init(n), steps), help) && CanFinishConnect(After(After(Init(n), steps), help), c)
  {
    var w := After(Init(n), steps);
    SpinStartsAfterIdIsOwned(n, steps, c);
    Reached(n, steps);
    assert FamilyAt(w, c) && CountersOk(w.actors[c]);
    var a := w.actors[c];
    if a.connectAck != [] {
      help := [];
      assert After(w, help) == w;
    } else if a.connectPending {
      help := [CommandConnect(c)];
      assert help[1..] == [];
      assert After(w, help) == Apply(w, help[0]);
    } else {
      help := [SendConnect(c), CommandConnect(c)];
      var w1 := Apply(w, help[0]);
      assert help[1..] == [CommandConnect(c)] && help[1..][1..] == [];
      assert After(w1, help[1..]) == Apply(w1, help[1]);
      assert After(w, help) == After(w1, help[1..]);
    }
  }

  /** When it spins on a `can_connect_ack`, the command thread alone ends the wait. */
  lemma CreateSpinEnds(n: nat, steps: seq<Step>, p: Pid) returns (help: seq<Step>)
    requires IsRun(Init(n), steps)
    requires p in After(Init(n), steps).actors && After(Init(n), steps).actors[p].sim.SpinCreateAck?
    ensures forall s <- help :: s == CommandPop
    ensures IsRun(After(Init(n), steps), help) && CanFinishCreate(After(After(Init(n), steps), help), p)
  {
    Reached(n, steps);
    help := PopUntilAcked(After(Init(n), steps), p);
  }

  lemma PopUntilAcked(w: World, p: Pid) returns (help: seq<Step>)
    requires Inv(w) && p in w.actors && w.actors[p].sim.SpinCreateAck?
    ensures forall s <- help :: s == CommandPop
    ensures IsRun(w, help) && CanFinishCreate(After(w, help), p)
    decreases |w.toCommand|
  {
    var c := w.actors[p].sim.child;
    assert FamilyAt(w, p);
    assert FamilyAt(w, c);
    if w.actors[c].canConnectAck != [] {
      help := [];
      assert After(w, help) == w;
    } else {
      assert ActorCreate(c) in w.toCommand && !w.finished;
      var w1 := Apply(w, CommandPop);
      StepKeepsInv(w, CommandPop);
      var rest := PopUntilAcked(w1, p);
      help := [CommandPop] + rest;
      assert help[1..] == rest;
      assert After(w, help) == After(w1, rest);
    }
  }

  // ----- progress of the SimGrid thread

  predicate BySimGrid(s: Step) {
    || s.NextRound? || s.Schedule? || s.Wake? || s.MaestroFinish? || s.ReadDecision? || s.Simcall? || s.Answer?
    || s.IssueCreate? || s.QuitActor? || s.PopCreateAck? || s.PopConnectAck?
  }

  /** The SimGrid thread has work left and does nothing any more, whatever the others do. */
  ghost predicate StuckForever(w: World) {
    !w.maestroDone && forall more | IsRun(w, more) :: NotBySimGrid(more)
  }

  predicate NotBySimGrid(steps: seq<Step>) {
    forall i | 0 <= i < |steps| :: !BySimGrid(steps[i])
  }

  predicate WaitsInHook(w: World, c: Pid) {
    c in w.actors && w.actors[c].client.HookAwait?
  }

  predicate NoHookWaits(w: World) {
    forall c | c in w.actors :: !WaitsInHook(w, c)
  }

  predicate NoHookAsks(steps: seq<Step>) {
    forall i | 0 <= i < |steps| :: !steps[i].HookRequest?
  }

  /** During an actor's turn, the SimGrid thread moves only if this actor does. */
  lemma TurnIsTaken(w: World, p: Pid, s: Step)
    requires Inv(w) && w.current == Some(p) && Enabled(w, s) && BySimGrid(s)
    ensures !InSim(w, p, Reading) || CanRead(w, p)
  {
    match s {
      case ReadDecision(q) => Parts(w, q);
      case Simcall(q, _) => Parts(w, q);
      case Answer(q) => Parts(w, q);
      case IssueCreate(q) => Parts(w, q);
      case QuitActor(q) => Parts(w, q);
      case PopCreateAck(q) => Parts(w, q);
      case PopConnectAck(q) => Parts(w, q);
      case _ =>
    }
  }

  /** The turn is that of the creator, whose socket has nothing to read: its client waits for the hook. */
  lemma HookBlocksItsCreator(w: World, c: Pid)
    requires Inv(w) && WaitsInHook(w, c)
    ensures var p := w.actors[c].parent;
            && w.current == Some(p) && InSim(w, p, Reading) && !CanRead(w, p) && InClient(w, p, WaitSem(c))
            && !CanLearnInHook(w, c)
  {
    Parts(w, c);
    Parts(w, w.actors[c].parent);
  }

  lemma HookStays(w: World, c: Pid, s: Step)
    requires Inv(w) && WaitsInHook(w, c) && Enabled(w, s)
    ensures !BySimGrid(s) && WaitsInHook(Apply(w, s), c)
  {
    HookBlocksItsCreator(w, c);
    if BySimGrid(s) {
      TurnIsTaken(w, w.actors[c].parent, s);
    }
    forall p <- w.actors
      ensures w.actors[p].client != GotId(c)
    {
      Parts(w, p);
    }
    hide Inv;
    OthersLeaveTheHook(w, c, s);
  }

  lemma OthersLeaveTheHook(w: World, c: Pid, s: Step)
    requires WaitsInHook(w, c) && !CanLearnInHook(w, c) && Enabled(w, s) && !BySimGrid(s)
    requires forall p <- w.actors :: w.actors[p].client != GotId(c)
    ensures WaitsInHook(Apply(w, s), c)
  {
  }

  lemma {:induction false} HookStaysForever(w: World, c: Pid, more: seq<Step>)
    requires Inv(w) && WaitsInHook(w, c) && IsRun(w, more)
    ensures NotBySimGrid(more) && WaitsInHook(After(w, more), c)
    decreases |more|
  {
    if more != [] {
      HookStays(w, c, more[0]);
      StepKeepsInv(w, more[0]);
      HookStaysForever(Apply(w, more[0]), c, more[1..]);
      assert more == [more[0]] + more[1..];
    }
  }

  /** Only a request makes a hook wait. */
  lemma WaitComesFromRequest(w: World, s: Step)
    requires NoHookWaits(w) && Enabled(w, s) && !s.HookRequest?
    ensures NoHookWaits(Apply(w, s))
  {
    forall c | WaitsInHook(Apply(w, s), c)
      ensures WaitsInHook(w, c)
    {
      WaitComesFromRequestAt(w, s, c);
    }
  }

  lemma WaitComesFromRequestAt(w: World, s: Step, c: Pid)
    requires Enabled(w, s) && !s.HookRequest? && WaitsInHook(Apply(w, s), c)
    ensures WaitsInHook(w, c)
  {
    if BySimGrid(s) {
      SimGridLeavesClients(w, s, c);
    } else {
      OthersRequestNothing(w, s, c);
    }
  }

  lemma SimGridLeavesClients(w: World, s: Step, c: Pid)
    requires Enabled(w, s) && BySimGrid(s) && c in Apply(w, s).actors
    ensures Apply(w, s).actors[c].client.Unborn? || (c in w.actors && Apply(w, s).actors[c].client == w.actors[c].client)
  {
    match s {
      case Schedule(p) => ResumeLeavesClients(w, p, c);
      case IssueCreate(p) =>
      case PopCreateAck(p) =>
      case _ => hide AcksFor;
    }
  }

  lemma ResumeLeavesClients(w: World, p: Pid, c: Pid)
    requires CanResume(w, p) && c in Resume(w, p).actors
    ensures c in w.actors && Resume(w, p).actors[c].client == w.actors[c].client
  {
  }

  lemma OthersRequestNothing(w: World, s: Step, c: Pid)
    requires Enabled(w, s) && !BySimGrid(s) && !s.HookRequest? && WaitsInHook(Apply(w, s), c)
    ensures WaitsInHook(w, c)
  {
  }

  lemma {:induction false} WaitsComeFromRequests(w: World, steps: seq<Step>)
    requires NoHookWaits(w) && IsRun(w, steps) && NoHookAsks(steps)
    ensures NoHookWaits(After(w, steps))
    decreases |steps|
  {
    if steps != [] {
      WaitComesFromRequest(w, steps[0]);
      WaitsComeFromRequests(Apply(w, steps[0]), steps[1..]);
    }
  }

  lemma {:induction false} RequestsLeaveAWait(w: World, steps: seq<Step>) returns (c: Pid)
    requires Inv(w) && IsRun(w, steps) && !NoHookAsks(steps)
    ensures WaitsInHook(After(w, steps), c)
    decreases |steps|
  {
    var w1 := Apply(w, steps[0]);
    StepKeepsInv(w, steps[0]);
    if steps[0].HookRequest? {
      c := steps[0].p;
      HookStaysForever(w1, c, steps[1..]);
    } else {
      assert !NoHookAsks(steps[1..]) by {
        var i :| 0 <= i < |steps| && steps[i].HookRequest?;
        assert steps[1..][i - 1].HookRequest?;
      }
      c := RequestsLeaveAWait(w1, steps[1..]);
    }
  }

  /** How many steps of clients and of the command thread the SimGrid thread can be waiting for. */
  function Rank(w: World): nat {
    if w.current.None? || w.current.value !in w.actors then 0
    else
      var a := w.actors[w.current.value];
      match a.sim
      case SpinConnect => if a.connectAck != [] then 0 else if a.client.BeforeConnect? then 2 else 1
      case SpinCreateAck(c) => if c in w.actors && w.actors[c].canConnectAck != [] then 0 else |w.toCommand|
      case Reading => if a.read < |a.sent| then 0 else ReaderRank(w, a)
      case _ => 0
  }

  function ReaderRank(w: World, a: Actor): nat {
    match a.client
    case User => 1
    case Posted => 1
    case Connecting => 2
    case AwaitAck(_) => 12
    case GotId(_) => 11
    case WaitSem(c) => if c !in w.actors || w.actors[c].semaphore > 0 then 2 else 3 + HookRank(w.actors[c])
    case _ => 0
  }

  function HookRank(a: Actor): nat {
    match a.client
    case BeforeConnect => 4
    case Connecting => if a.connectPending then 3 else 2
    case AfterConnect => 1
    case _ => 0
  }

  function NextOfClient(w: World, p: Pid): Step
    requires p in w.actors
  {
    if w.actors[p].client.BeforeConnect? then SendConnect(p)
    else if w.actors[p].connectPending then CommandConnect(p)
    else if w.actors[p].client.Connecting? then ConnectDone(p)
    else PostSemaphore(p)
  }

  function NextOfReader(w: World, p: Pid): Step
    requires p in w.actors
  {
    var a := w.actors[p];
    match a.client
    case User => SendDecision(p, Other)
    case Posted => SendDecision(p, Other)
    case GotId(_) => Launch(p, true)
    case AwaitAck(_) => ReceiveAck(p)
    case WaitSem(c) => if c in w.actors && w.actors[c].semaphore == 0 then NextOfClient(w, c) else SemWait(p)
    case _ => NextOfClient(w, p)
  }

  lemma NextInConnectSpin(w: World, p: Pid) returns (s: Step)
    requires InSim(w, p, SpinConnect) && InvAt(w, p) && !w.finished
    ensures Enabled(w, s) && !s.HookRequest? && (!BySimGrid(s) ==> Apply(w, s).current == w.current)
    ensures w.current == Some(p) && !BySimGrid(s) ==> Rank(Apply(w, s)) < Rank(w)
  {
    s := if w.actors[p].connectAck != [] then PopConnectAck(p) else NextOfClient(w, p);
  }

  lemma NextInCreateSpin(w: World, p: Pid, c: Pid) returns (s: Step)
    requires p in w.actors && w.actors[p].sim == SpinCreateAck(c) && c in w.actors && c != p && InvAt(w, p) && InvAt(w, c)
    requires !w.finished
    ensures Enabled(w, s) && !s.HookRequest?
    ensures w.current == Some(p) && !BySimGrid(s) ==> Rank(Apply(w, s)) < Rank(w)
  {
    if w.actors[c].canConnectAck != [] {
      s := PopCreateAck(p);
    } else {
      assert ActorCreate(c) in w.toCommand;
      s := CommandPop;
      hide InvAt, ScheduledAt, FamilyAt, CountersOk;
      PopKeepsReader(w, p);
    }
  }

  lemma PopKeepsReader(w: World, p: Pid)
    requires CanPop(w) && p in w.actors && w.actors[p].sim.SpinCreateAck?
    ensures p in Pop(w).actors && Pop(w).actors[p].sim == w.actors[p].sim && Pop(w).current == w.current
  {
  }

  /** The client has acknowledgments to read, an id to use, or user code to run. */
  lemma NextOfOwnClient(w: World, p: Pid) returns (s: Step)
    requires InSim(w, p, Reading) && w.current == Some(p) && InvAt(w, p) && !w.finished
    requires w.actors[p].read == |w.actors[p].sent| && !w.actors[p].client.WaitSem? && !Hooking(w.actors[p])
    requires w.actors[p].client.GotId? ==> w.actors[p].client.child in w.actors && w.actors[p].client.child != p
    ensures Enabled(w, s) && !s.HookRequest?
    ensures Rank(Apply(w, s)) < Rank(w)
  {
    s := OwnStep(w, p);
    hide InvAt;
    assert Rank(w) == ReaderRank(w, w.actors[p]);
  }

  lemma OwnStep(w: World, p: Pid) returns (s: Step)
    requires InSim(w, p, Reading) && InvAt(w, p) && !w.finished
    requires w.actors[p].read == |w.actors[p].sent| && !w.actors[p].client.WaitSem? && !Hooking(w.actors[p])
    requires w.actors[p].client.GotId? ==> w.actors[p].client.child in w.actors
    ensures s == NextOfReader(w, p) && Enabled(w, s)
    ensures match w.actors[p].client
            case User => s == SendDecision(p, Other)
            case Posted => s == SendDecision(p, Other)
            case GotId(_) => s == Launch(p, true)
            case AwaitAck(_) => s == ReceiveAck(p)
            case Connecting => s == CommandConnect(p) || s == ConnectDone(p)
            case _ => false
  {
    s := NextOfReader(w, p);
  }

  /** The client waits for the thread that it created, which goes on. */
  lemma NextOfChild(w: World, p: Pid, c: Pid) returns (s: Step)
    requires InSim(w, p, Reading) && w.current == Some(p) && InClient(w, p, WaitSem(c)) && !w.finished
    requires w.actors[p].read == |w.actors[p].sent| && c in w.actors && c != p && FamilyAt(w, p) && FamilyAt(w, c)
    requires !w.actors[c].client.HookAwait?
    ensures Enabled(w, s) && !s.HookRequest?
    ensures Rank(Apply(w, s)) < Rank(w)
  {
    s := NextOfReader(w, p);
  }

  lemma Relatives(w: World, p: Pid)
    requires Inv(w) && p in w.actors
    ensures w.actors[p].dynamic ==> w.actors[p].parent in w.actors && w.actors[p].parent != p
    ensures !ClaimOf(w.actors[p]).NoClaim? ==> ClaimOf(w.actors[p]).c in w.actors && ClaimOf(w.actors[p]).c != p
  {
    Parts(w, p);
    if !ClaimOf(w.actors[p]).NoClaim? {
      Parts(w, ClaimOf(w.actors[p]).c);
    }
  }

  lemma ReaderIsNotInHook(w: World, p: Pid)
    requires Inv(w) && w.current == Some(p) && InSim(w, p, Reading)
    ensures !Hooking(w.actors[p])
  {
    if Hooking(w.actors[p]) {
      HolderOfHook(w, p);
      Relatives(w, p);
    }
  }

  lemma HolderOfHook(w: World, p: Pid)
    requires Inv(w) && p in w.actors && Hooking(w.actors[p])
    ensures w.current == Some(w.actors[p].parent) && w.actors[p].dynamic
  {
    Parts(w, p);
    Parts(w, w.actors[p].parent);
  }

  lemma NextWhileReading(w: World, p: Pid) returns (s: Step)
    requires Inv(w) && NoHookWaits(w) && InSim(w, p, Reading) && w.current == Some(p) && !w.finished
    ensures Enabled(w, s) && !s.HookRequest?
    ensures !BySimGrid(s) ==> Rank(Apply(w, s)) < Rank(w)
  {
    hide Inv, Rank, Apply, FamilyAt, CountersOk, ScheduledAt;
    Parts(w, p);
    Relatives(w, p);
    SentIsRead(w, p);
    ReaderIsNotInHook(w, p);
    var a := w.actors[p];
    if a.read < |a.sent| {
      s := ReadDecision(p);
    } else if a.client.WaitSem? {
      Parts(w, a.client.child);
      assert !WaitsInHook(w, a.client.child);
      s := NextOfChild(w, p, a.client.child);
    } else {
      s := NextOfOwnClient(w, p);
    }
  }

  lemma SentIsRead(w: World, p: Pid)
    requires p in w.actors && InvAt(w, p)
    ensures w.actors[p].read <= |w.actors[p].sent|
  {
  }

  /** Unless it waits for a hook, the SimGrid thread moves, or somebody brings it closer to moving. */
  lemma NextWithCurrent(w: World, p: Pid) returns (s: Step)
    requires Inv(w) && NoHookWaits(w) && w.current == Some(p)
    ensures Enabled(w, s) && !s.HookRequest? && !w.finished
    ensures !BySimGrid(s) ==> Rank(Apply(w, s)) < Rank(w)
  {
    Parts(w, p);
    assert OnCpu(w.actors[p].sim) && !w.finished;
    s := NextOfTurn(w, p);
  }

  lemma NextOfTurn(w: World, p: Pid) returns (s: Step)
    requires Inv(w) && NoHookWaits(w) && w.current == Some(p) && p in w.actors && OnCpu(w.actors[p].sim) && !w.finished
    ensures Enabled(w, s) && !s.HookRequest?
    ensures !BySimGrid(s) ==> Rank(Apply(w, s)) < Rank(w)
  {
    hide Inv, InvAt, Rank, Apply;
    Parts(w, p);
    Relatives(w, p);
    var a := w.actors[p];
    if !ClaimOf(a).NoClaim? {
      Parts(w, ClaimOf(a).c);
      assert !WaitsInHook(w, ClaimOf(a).c);
    }
    match a.sim {
      case Handling(_) => s := Simcall(p, true);
      case SpinConnect => s := NextInConnectSpin(w, p);
      case SpinCreateAck(c) => s := NextInCreateSpin(w, p, c);
      case _ =>
        s := NextWhileReading(w, p);
    }
  }

  lemma EmptyOrNot(pids: set<Pid>)
    ensures pids == {} || exists p :: p in pids
  {
    if forall p :: p !in pids {
      assert pids == {};
    }
  }

  /** Between two turns the engine goes on, waits for an event, or is done. */
  lemma NextWithoutCurrent(w: World) returns (s: Step)
    requires Inv(w) && w.current.None? && !w.maestroDone
    ensures Enabled(w, s) && BySimGrid(s)
  {
    if w.toRun != {} {
      EmptyOrNot(w.toRun);
      var p :| p in w.toRun;
      s := Schedule(p);
    } else if w.ready != {} {
      s := NextRound;
    } else if p :| p in w.actors && w.actors[p].sim.Suspended? {
      s := Wake(p);
    } else {
      NobodyIsLeft(w);
      s := MaestroFinish;
    }
  }

  /** From every state in which it has work left and no hook waits, the SimGrid thread can move again,
      and only its own last step is needed from it. */
  lemma SimGridCanMove(w: World) returns (help: seq<Step>)
    requires Inv(w) && NoHookWaits(w) && !w.maestroDone
    ensures IsRun(w, help) && NoHookAsks(help) && help != [] && BySimGrid(help[|help| - 1])
    decreases Rank(w)
  {
    var s;
    if w.current.Some? {
      s := NextWithCurrent(w, w.current.value);
    } else {
      s := NextWithoutCurrent(w);
    }
    if BySimGrid(s) {
      help := [s];
      assert help[1..] == [];
    } else {
      StepKeepsInv(w, s);
      WaitComesFromRequest(w, s);
      var rest := SimGridCanMove(Apply(w, s));
      help := [s] + rest;
      assert help[1..] == rest;
    }
  }

  lemma NobodyIsLeft(w: World)
    requires Inv(w) && w.current.None? && w.toRun == {} && w.ready == {}
    requires forall p <- w.actors :: !w.actors[p].sim.Suspended?
    ensures AllDone(w)
  {
    forall p <- w.actors
      ensures w.actors[p].sim.Done?
    {
      Parts(w, p);
    }
  }

  /** The SimGrid thread can be stuck for good, and it is exactly when the second hook of a thread made by
      `Actor::create` has used the library. */
  lemma StuckExactlyAfterAHookRequest(n: nat, steps: seq<Step>)
    requires IsRun(Init(n), steps)
    ensures StuckForever(After(Init(n), steps)) <==> !NoHookAsks(steps)
  {
    var w := After(Init(n), steps);
    Reached(n, steps);
    InitInv(n);
    if NoHookAsks(steps) {
      WaitsComeFromRequests(Init(n), steps);
      if !w.maestroDone {
        var help := SimGridCanMove(w);
        assert !NotBySimGrid(help);
      }
    } else {
      var c := RequestsLeaveAWait(Init(n), steps);
      HookBlocksItsCreator(w, c);
      forall more | IsRun(w, more)
        ensures NotBySimGrid(more)
      {
        HookStaysForever(w, c, more);
      }
    }
  }

  /** As long as no hook uses the library, some party can move until the command thread has seen the end
      of the simulation. */
  lemma NoDeadlock(n: nat, steps: seq<Step>)
    requires IsRun(Init(n), steps) && NoHookAsks(steps) && !After(Init(n), steps).finished
    ensures exists s :: Enabled(After(Init(n), steps), s)
  {
    var w := After(Init(n), steps);
    Reached(n, steps);
    InitInv(n);
    WaitsComeFromRequests(Init(n), steps);
    if w.maestroDone {
      assert Enabled(w, CommandPop);
    } else {
      var help := SimGridCanMove(w);
      assert Enabled(w, help[0]);
    }
  }

  /** At the end nothing is lost: the message queue is empty and the socket of every actor was handed
      back, once. */
  lemma NothingLost(n: nat, steps: seq<Step>)
    requires IsRun(Init(n), steps) && After(Init(n), steps).finished
    ensures var w := After(Init(n), steps);
            w.toCommand == [] && w.dropped == w.actors.Keys && AllDone(w)
  {
    Reached(n, steps);
  }
}
