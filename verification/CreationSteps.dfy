/** Every step of the creation protocol keeps its invariant. For each step, one lemma is about the
    records of the one or two actors that it touches, one about the scheduler if it does anything to
    it; what the others see comes from module CreationInvariant. */
module CreationSteps {
  import opened CreationProtocol
  import opened CreationInvariant

  lemma InitInv(n: nat)
    ensures Inv(Init(n))
  {
  }

  lemma ReadScheduling(w: World, p: Pid)
    requires Scheduling(w) && CanRead(w, p)
    ensures Scheduling(Read(w, p))
  {
    assert ScheduledAt(w, p);
    forall q | q in Read(w, p).actors
      ensures ScheduledAt(Read(w, p), q)
    {
      assert q in w.actors && ScheduledAt(w, q);
    }
  }

  lemma ReadLocal(w: World, p: Pid)
    requires CanRead(w, p) && InvAt(w, p)
    ensures Silent(w, Read(w, p), p, p) && (Read(w, p).failed ==> w.failed)
    ensures Local(w, Read(w, p), p, p, p)
  {
  }

  lemma ReadKeepsInv(w: World, p: Pid)
    requires Inv(w) && CanRead(w, p)
    ensures Inv(Read(w, p))
  {
    hide Scheduling, Counters, Family, Queue, FamilyAt, CountersOk, ScheduledAt, InvAt, Local;
    Parts(w, p);
    ReadScheduling(w, p);
    ReadLocal(w, p);
    SilentStep(w, Read(w, p), p, p);
  }

  lemma SuspendScheduling(w: World, p: Pid, blocking: bool)
    requires Scheduling(w) && CanSuspend(w, p)
    ensures Scheduling(Suspend(w, p, blocking))
  {
    assert ScheduledAt(w, p);
    forall q | q in Suspend(w, p, blocking).actors
      ensures ScheduledAt(Suspend(w, p, blocking), q)
    {
      assert q in w.actors && ScheduledAt(w, q);
    }
  }

  lemma SuspendLocal(w: World, p: Pid, blocking: bool)
    requires CanSuspend(w, p) && InvAt(w, p)
    ensures Silent(w, Suspend(w, p, blocking), p, p) && (Suspend(w, p, blocking).failed ==> w.failed)
    ensures Local(w, Suspend(w, p, blocking), p, p, p)
  {
  }

  lemma SuspendKeepsInv(w: World, p: Pid, blocking: bool)
    requires Inv(w) && CanSuspend(w, p)
    ensures Inv(Suspend(w, p, blocking))
  {
    hide Scheduling, Counters, Family, Queue, FamilyAt, CountersOk, ScheduledAt, InvAt, Local;
    Parts(w, p);
    SuspendScheduling(w, p, blocking);
    SuspendLocal(w, p, blocking);
    SilentStep(w, Suspend(w, p, blocking), p, p);
  }

  lemma ReplyScheduling(w: World, p: Pid)
    requires Scheduling(w) && CanReply(w, p)
    ensures Scheduling(Reply(w, p))
  {
    assert ScheduledAt(w, p);
    forall q | q in Reply(w, p).actors
      ensures ScheduledAt(Reply(w, p), q)
    {
      assert q in w.actors && ScheduledAt(w, q);
    }
  }

  lemma ReplyCounters(w: World, p: Pid)
    requires CanReply(w, p)
    requires CountersOk(w.actors[p])
    ensures CountersOk(Reply(w, p).actors[p])
  {
    AnswerCounts(w.actors[p], w.actors[p].sim.decision, 0);
  }

  lemma ReplyLocal(w: World, p: Pid)
    requires CanReply(w, p) && InvAt(w, p)
    ensures Silent(w, Reply(w, p), p, p) && (Reply(w, p).failed ==> w.failed)
    ensures Local(w, Reply(w, p), p, p, p)
  {
    ReplyCounters(w, p);
    ReplyFamily(w, p);
    hide CountersOk, FamilyAt, ScheduledAt, Discreet, AcksFor, ClaimOf;
  }

  lemma ReplyFamily(w: World, p: Pid)
    requires CanReply(w, p) && InvAt(w, p)
    ensures FamilyAt(Reply(w, p), p) && Discreet(w.actors[p], Reply(w, p).actors[p], p, p)
    ensures w.actors[p].client.Unborn? || ActorCreate(p) !in w.toCommand
  {
    hide AcksFor;
  }

  lemma ReplyKeepsInv(w: World, p: Pid)
    requires Inv(w) && CanReply(w, p)
    ensures Inv(Reply(w, p))
  {
    hide Scheduling, Counters, Family, Queue, FamilyAt, CountersOk, ScheduledAt, InvAt, Local;
    Parts(w, p);
    ReplyScheduling(w, p);
    ReplyLocal(w, p);
    SilentStep(w, Reply(w, p), p, p);
  }

  lemma FinishConnectScheduling(w: World, p: Pid)
    requires Scheduling(w) && CanFinishConnect(w, p)
    ensures Scheduling(FinishConnect(w, p))
  {
    assert ScheduledAt(w, p);
    forall q | q in FinishConnect(w, p).actors
      ensures ScheduledAt(FinishConnect(w, p), q)
    {
      assert q in w.actors && ScheduledAt(w, q);
    }
  }

  lemma FinishConnectLocal(w: World, p: Pid)
    requires CanFinishConnect(w, p) && InvAt(w, p)
    ensures Silent(w, FinishConnect(w, p), p, p) && (FinishConnect(w, p).failed ==> w.failed)
    ensures Local(w, FinishConnect(w, p), p, p, p)
  {
  }

  lemma FinishConnectKeepsInv(w: World, p: Pid)
    requires Inv(w) && CanFinishConnect(w, p)
    ensures Inv(FinishConnect(w, p))
  {
    hide Scheduling, Counters, Family, Queue, FamilyAt, CountersOk, ScheduledAt, InvAt, Local;
    Parts(w, p);
    FinishConnectScheduling(w, p);
    FinishConnectLocal(w, p);
    SilentStep(w, FinishConnect(w, p), p, p);
  }

  lemma BeginScheduling(w: World, p: Pid)
    requires Scheduling(w) && CanResume(w, p) && w.actors[p].sim.Fresh?
    ensures Scheduling(Resume(w, p))
  {
    assert ScheduledAt(w, p);
    forall q | q in Resume(w, p).actors
      ensures ScheduledAt(Resume(w, p), q)
    {
      assert q in w.actors && ScheduledAt(w, q);
    }
  }

  /** An initial actor starts reading, a created one yields so that its creator can go on. */
  lemma BeginCounters(w: World, p: Pid)
    requires CanResume(w, p) && w.actors[p].sim.Fresh? && CountersOk(w.actors[p])
    ensures CountersOk(Resume(w, p).actors[p])
    ensures ClaimOf(w.actors[p]) == NoClaim && ClaimOf(Resume(w, p).actors[p]) == NoClaim
  {
  }

  lemma BeginSilent(w: World, p: Pid)
    requires CanResume(w, p) && w.actors[p].sim.Fresh? && CountersOk(w.actors[p])
    ensures Silent(w, Resume(w, p), p, p) && (Resume(w, p).failed ==> w.failed)
  {
    BeginCounters(w, p);
    hide CountersOk, ClaimOf;
  }

  lemma BeginFamily(w: World, p: Pid)
    requires CanResume(w, p) && w.actors[p].sim.Fresh? && FamilyAt(w, p) && CountersOk(w.actors[p])
    requires w.toRun !! w.ready
    ensures FamilyAt(Resume(w, p), p) && Discreet(w.actors[p], Resume(w, p).actors[p], p, p)
    ensures w.actors[p].client.Unborn? || ActorCreate(p) !in w.toCommand
  {
    BeginCounters(w, p);
    hide CountersOk;
  }

  lemma BeginLocal(w: World, p: Pid)
    requires CanResume(w, p) && w.actors[p].sim.Fresh? && InvAt(w, p) && w.toRun !! w.ready
    ensures Silent(w, Resume(w, p), p, p) && (Resume(w, p).failed ==> w.failed)
    ensures Local(w, Resume(w, p), p, p, p)
  {
    hide CountersOk, FamilyAt, ScheduledAt, Silent, Discreet;
    BeginCounters(w, p);
    BeginSilent(w, p);
    BeginFamily(w, p);
  }

  lemma BeginKeepsInv(w: World, p: Pid)
    requires Inv(w) && CanResume(w, p) && w.actors[p].sim.Fresh?
    ensures Inv(Resume(w, p))
  {
    hide Scheduling, Counters, Family, Queue, FamilyAt, CountersOk, ScheduledAt, InvAt, Local;
    Parts(w, p);
    BeginScheduling(w, p);
    BeginLocal(w, p);
    SilentStep(w, Resume(w, p), p, p);
  }

  lemma ContinueScheduling(w: World, p: Pid)
    requires Scheduling(w) && CanResume(w, p) && w.actors[p].sim.Suspended?
    ensures Scheduling(Resume(w, p))
  {
    assert ScheduledAt(w, p);
    forall q | q in Resume(w, p).actors
      ensures ScheduledAt(Resume(w, p), q)
    {
      assert q in w.actors && ScheduledAt(w, q);
    }
  }

  lemma ContinueLocal(w: World, p: Pid)
    requires CanResume(w, p) && w.actors[p].sim.Suspended? && InvAt(w, p)
    ensures Silent(w, Resume(w, p), p, p) && (Resume(w, p).failed ==> w.failed)
    ensures Local(w, Resume(w, p), p, p, p)
  {
  }

  lemma ContinueKeepsInv(w: World, p: Pid)
    requires Inv(w) && CanResume(w, p) && w.actors[p].sim.Suspended?
    ensures Inv(Resume(w, p))
  {
    hide Scheduling, Counters, Family, Queue, FamilyAt, CountersOk, ScheduledAt, InvAt, Local;
    Parts(w, p);
    ContinueScheduling(w, p);
    ContinueLocal(w, p);
    SilentStep(w, Resume(w, p), p, p);
  }

  lemma LinkLocal(w: World, p: Pid)
    requires CanLink(w, p) && InvAt(w, p)
    ensures Silent(w, Link(w, p), p, p) && (Link(w, p).failed ==> w.failed)
    ensures Local(w, Link(w, p), p, p, p)
  {
  }

  lemma LinkKeepsInv(w: World, p: Pid)
    requires Inv(w) && CanLink(w, p)
    ensures Inv(Link(w, p))
  {
    hide Scheduling, Counters, Family, Queue, FamilyAt, CountersOk, ScheduledAt, InvAt, Local;
    Parts(w, p);
    SameScheduling(w, Link(w, p));
    LinkLocal(w, p);
    SilentStep(w, Link(w, p), p, p);
  }

  lemma SendCounters(w: World, p: Pid, d: Decision)
    requires CanSend(w, p, d)
    requires CountersOk(w.actors[p])
    ensures CountersOk(Send(w, p, d).actors[p])
  {
    SendCounts(w.actors[p], d);
  }

  lemma SendLocal(w: World, p: Pid, d: Decision)
    requires CanSend(w, p, d) && InvAt(w, p)
    ensures Silent(w, Send(w, p, d), p, p) && (Send(w, p, d).failed ==> w.failed)
    ensures Local(w, Send(w, p, d), p, p, p)
  {
    SendCounters(w, p, d);
    hide CountersOk;
  }

  lemma SendKeepsInv(w: World, p: Pid, d: Decision)
    requires Inv(w) && CanSend(w, p, d)
    ensures Inv(Send(w, p, d))
  {
    hide Scheduling, Counters, Family, Queue, FamilyAt, CountersOk, ScheduledAt, InvAt, Local;
    Parts(w, p);
    SameScheduling(w, Send(w, p, d));
    SendLocal(w, p, d);
    SilentStep(w, Send(w, p, d), p, p);
  }

  lemma AskConnectLocal(w: World, p: Pid)
    requires InClient(w, p, BeforeConnect) && InvAt(w, p)
    ensures Silent(w, AskConnect(w, p), p, p) && (AskConnect(w, p).failed ==> w.failed)
    ensures Local(w, AskConnect(w, p), p, p, p)
  {
  }

  lemma AskConnectKeepsInv(w: World, p: Pid)
    requires Inv(w) && InClient(w, p, BeforeConnect)
    ensures Inv(AskConnect(w, p))
  {
    hide Scheduling, Counters, Family, Queue, FamilyAt, CountersOk, ScheduledAt, InvAt, Local;
    Parts(w, p);
    SameScheduling(w, AskConnect(w, p));
    AskConnectLocal(w, p);
    SilentStep(w, AskConnect(w, p), p, p);
  }

  lemma EndConnectLocal(w: World, p: Pid)
    requires CanEndConnect(w, p) && InvAt(w, p)
    ensures Silent(w, EndConnect(w, p), p, p) && (EndConnect(w, p).failed ==> w.failed)
    ensures Local(w, EndConnect(w, p), p, p, p)
  {
  }

  lemma EndConnectKeepsInv(w: World, p: Pid)
    requires Inv(w) && CanEndConnect(w, p)
    ensures Inv(EndConnect(w, p))
  {
    hide Scheduling, Counters, Family, Queue, FamilyAt, CountersOk, ScheduledAt, InvAt, Local;
    Parts(w, p);
    SameScheduling(w, EndConnect(w, p));
    EndConnectLocal(w, p);
    SilentStep(w, EndConnect(w, p), p, p);
  }

  lemma ReceiveLocal(w: World, p: Pid)
    requires CanReceive(w, p) && !w.actors[p].client.decision.Create? && InvAt(w, p)
    ensures Silent(w, Receive(w, p), p, p) && (Receive(w, p).failed ==> w.failed)
    ensures Local(w, Receive(w, p), p, p, p)
  {
  }

  lemma ReceiveKeepsInv(w: World, p: Pid)
    requires Inv(w) && CanReceive(w, p) && !w.actors[p].client.decision.Create?
    ensures Inv(Receive(w, p))
  {
    hide Scheduling, Counters, Family, Queue, FamilyAt, CountersOk, ScheduledAt, InvAt, Local;
    Parts(w, p);
    SameScheduling(w, Receive(w, p));
    ReceiveLocal(w, p);
    SilentStep(w, Receive(w, p), p, p);
  }

  lemma PostLocal(w: World, p: Pid, c: Pid)
    requires InClient(w, p, AfterConnect) && c == w.actors[p].parent
    requires c in w.actors && InvAt(w, p) && InvAt(w, c)
    ensures Silent(w, Post(w, p), p, c) && (Post(w, p).failed ==> w.failed)
    ensures Local(w, Post(w, p), p, c, p) && Local(w, Post(w, p), p, c, c)
  {
  }

  lemma PostKeepsInv(w: World, p: Pid)
    requires Inv(w) && InClient(w, p, AfterConnect)
    ensures Inv(Post(w, p))
  {
    hide Scheduling, Counters, Family, Queue, FamilyAt, CountersOk, ScheduledAt, InvAt, Local;
    Parts(w, p);
    PostPartner(w, p);
    var c := w.actors[p].parent;
    Parts(w, c);
    SameScheduling(w, Post(w, p));
    PostLocal(w, p, c);
    SilentStep(w, Post(w, p), p, c);
  }

  lemma PostPartner(w: World, p: Pid)
    requires InClient(w, p, AfterConnect) && InvAt(w, p)
    ensures w.actors[p].parent in w.actors
  {
  }

  lemma FinishCreateScheduling(w: World, p: Pid)
    requires Scheduling(w) && CanFinishCreate(w, p)
    ensures Scheduling(FinishCreate(w, p))
  {
    assert ScheduledAt(w, p);
    forall q | q in FinishCreate(w, p).actors
      ensures ScheduledAt(FinishCreate(w, p), q)
    {
      assert q in w.actors && ScheduledAt(w, q);
    }
  }

  lemma FinishCreateCounters(w: World, p: Pid, c: Pid)
    requires CanFinishCreate(w, p) && c == w.actors[p].sim.child && c != p
    requires CountersOk(w.actors[p]) && CountersOk(w.actors[c])
    ensures CountersOk(FinishCreate(w, p).actors[p]) && CountersOk(FinishCreate(w, p).actors[c])
  {
    AnswerCounts(w.actors[p], Create, c);
  }

  lemma FinishCreateLocal(w: World, p: Pid, c: Pid)
    requires CanFinishCreate(w, p) && c == w.actors[p].sim.child
    requires c in w.actors && InvAt(w, p) && c != p && InvAt(w, c)
    ensures Silent(w, FinishCreate(w, p), p, c) && (FinishCreate(w, p).failed ==> w.failed)
    ensures Local(w, FinishCreate(w, p), p, c, p) && Local(w, FinishCreate(w, p), p, c, c)
  {
    FinishCreateCounters(w, p, c);
    hide CountersOk;
  }

  lemma FinishCreateKeepsInv(w: World, p: Pid)
    requires Inv(w) && CanFinishCreate(w, p)
    ensures Inv(FinishCreate(w, p))
  {
    hide Scheduling, Counters, Family, Queue, FamilyAt, CountersOk, ScheduledAt, InvAt, Local;
    Parts(w, p);
    FinishCreatePartner(w, p);
    var c := w.actors[p].sim.child;
    Parts(w, c);
    FinishCreateScheduling(w, p);
    FinishCreateLocal(w, p, c);
    SilentStep(w, FinishCreate(w, p), p, c);
  }

  lemma FinishCreatePartner(w: World, p: Pid)
    requires CanFinishCreate(w, p) && InvAt(w, p)
    ensures w.actors[p].sim.child in w.actors && w.actors[p].sim.child != p
  {
  }

  lemma LaunchChildCounters(w: World, p: Pid, threaded: bool, c: Pid)
    requires CanLaunch(w, p) && c == w.actors[p].client.child && c != p && w.actors[c].client.Unborn?
    requires CountersOk(w.actors[p]) && CountersOk(w.actors[c])
    ensures CountersOk(LaunchChild(w, p, threaded).actors[p]) && CountersOk(LaunchChild(w, p, threaded).actors[c])
  {
  }

  lemma LaunchChildLocal(w: World, p: Pid, threaded: bool, c: Pid)
    requires CanLaunch(w, p) && c == w.actors[p].client.child
    requires c in w.actors && InvAt(w, p) && c != p && w.actors[c].client.Unborn? && InvAt(w, c)
    ensures Silent(w, LaunchChild(w, p, threaded), p, c) && (LaunchChild(w, p, threaded).failed ==> w.failed)
    ensures Local(w, LaunchChild(w, p, threaded), p, c, p) && Local(w, LaunchChild(w, p, threaded), p, c, c)
  {
    LaunchChildCounters(w, p, threaded, c);
    hide CountersOk;
  }

  lemma LaunchChildKeepsInv(w: World, p: Pid, threaded: bool)
    requires Inv(w) && CanLaunch(w, p)
    ensures Inv(LaunchChild(w, p, threaded))
  {
    hide Scheduling, Counters, Family, Queue, FamilyAt, CountersOk, ScheduledAt, InvAt, Local;
    Parts(w, p);
    LaunchChildPartner(w, p, threaded);
    var c := w.actors[p].client.child;
    Parts(w, c);
    SameScheduling(w, LaunchChild(w, p, threaded));
    LaunchChildLocal(w, p, threaded, c);
    SilentStep(w, LaunchChild(w, p, threaded), p, c);
  }

  lemma LaunchChildPartner(w: World, p: Pid, threaded: bool)
    requires CanLaunch(w, p) && InvAt(w, p)
    ensures var c := w.actors[p].client.child; c in w.actors && c != p && w.actors[c].client.Unborn?
  {
  }

  lemma EndWaitCounters(w: World, p: Pid, c: Pid)
    requires CanEndWait(w, p) && c == w.actors[p].client.child && c != p
    requires CountersOk(w.actors[p]) && CountersOk(w.actors[c])
    ensures CountersOk(EndWait(w, p).actors[p]) && CountersOk(EndWait(w, p).actors[c])
  {
  }

  lemma EndWaitLocal(w: World, p: Pid, c: Pid)
    requires CanEndWait(w, p) && c == w.actors[p].client.child
    requires c in w.actors && InvAt(w, p) && c != p && InvAt(w, c)
    ensures Silent(w, EndWait(w, p), p, c) && (EndWait(w, p).failed ==> w.failed)
    ensures Local(w, EndWait(w, p), p, c, p) && Local(w, EndWait(w, p), p, c, c)
  {
    EndWaitCounters(w, p, c);
    EndWaitFamily(w, p, c);
    hide CountersOk, FamilyAt, ScheduledAt, Discreet;
  }

  lemma EndWaitFamily(w: World, p: Pid, c: Pid)
    requires CanEndWait(w, p) && c == w.actors[p].client.child
    requires c in w.actors && InvAt(w, p) && c != p && InvAt(w, c)
    ensures FamilyAt(EndWait(w, p), p) && FamilyAt(EndWait(w, p), c)
    ensures Discreet(w.actors[p], EndWait(w, p).actors[p], p, c) && Discreet(w.actors[c], EndWait(w, p).actors[c], p, c)
    ensures forall q | q in {p, c} :: w.actors[q].client.Unborn? || ActorCreate(q) !in w.toCommand
  {
  }

  lemma EndWaitKeepsInv(w: World, p: Pid)
    requires Inv(w) && CanEndWait(w, p)
    ensures Inv(EndWait(w, p))
  {
    hide Scheduling, Counters, Family, Queue, FamilyAt, CountersOk, ScheduledAt, InvAt, Local;
    Parts(w, p);
    EndWaitPartner(w, p);
    var c := w.actors[p].client.child;
    Parts(w, c);
    SameScheduling(w, EndWait(w, p));
    EndWaitLocal(w, p, c);
    SilentStep(w, EndWait(w, p), p, c);
  }

  lemma EndWaitPartner(w: World, p: Pid)
    requires CanEndWait(w, p) && InvAt(w, p)
    ensures w.actors[p].client.child in w.actors && w.actors[p].client.child != p
  {
  }

  lemma StartSpinScheduling(w: World, p: Pid)
    requires Scheduling(w) && CanResume(w, p) && w.actors[p].sim.Yielded?
    ensures Scheduling(Resume(w, p))
  {
    assert ScheduledAt(w, p);
    forall q | q in Resume(w, p).actors
      ensures ScheduledAt(Resume(w, p), q)
    {
      assert q in w.actors && ScheduledAt(w, q);
    }
  }

  lemma StartSpinLocal(w: World, p: Pid, c: Pid)
    requires CanResume(w, p) && w.actors[p].sim.Yielded? && c == w.actors[p].parent
    requires c in w.actors && InvAt(w, p) && w.toRun !! w.ready && InvAt(w, c)
    ensures Silent(w, Resume(w, p), p, c) && (Resume(w, p).failed ==> w.failed)
    ensures Local(w, Resume(w, p), p, c, p) && Local(w, Resume(w, p), p, c, c)
  {
    StartSpinSilent(w, p, c);
    StartSpinFamily(w, p, c);
    hide FamilyAt, ScheduledAt, Discreet, Silent;
  }

  lemma StartSpinSilent(w: World, p: Pid, c: Pid)
    requires CanResume(w, p) && w.actors[p].sim.Yielded? && c == w.actors[p].parent
    requires c in w.actors && c != p && CountersOk(w.actors[p])
    ensures Silent(w, Resume(w, p), p, c) && (Resume(w, p).failed ==> w.failed)
  {
  }

  lemma StartSpinFamily(w: World, p: Pid, c: Pid)
    requires CanResume(w, p) && w.actors[p].sim.Yielded? && c == w.actors[p].parent && c != p
    requires c in w.actors && InvAt(w, p) && w.toRun !! w.ready && InvAt(w, c)
    ensures FamilyAt(Resume(w, p), p) && FamilyAt(Resume(w, p), c)
    ensures Discreet(w.actors[p], Resume(w, p).actors[p], p, c) && Discreet(w.actors[c], Resume(w, p).actors[c], p, c)
    ensures forall q | q in {p, c} :: Resume(w, p).actors[q].client.Unborn? || ActorCreate(q) !in w.toCommand
  {
  }

  lemma StartSpinKeepsInv(w: World, p: Pid)
    requires Inv(w) && CanResume(w, p) && w.actors[p].sim.Yielded?
    ensures Inv(Resume(w, p))
  {
    hide Scheduling, Counters, Family, Queue, FamilyAt, CountersOk, ScheduledAt, InvAt, Local;
    Parts(w, p);
    StartSpinPartner(w, p);
    var c := w.actors[p].parent;
    Parts(w, c);
    StartSpinScheduling(w, p);
    StartSpinLocal(w, p, c);
    SilentStep(w, Resume(w, p), p, c);
  }

  lemma StartSpinPartner(w: World, p: Pid)
    requires CanResume(w, p) && w.actors[p].sim.Yielded? && InvAt(w, p)
    ensures w.actors[p].parent in w.actors
  {
  }

  lemma ReceiveIdLocal(w: World, p: Pid, c: Pid)
    requires CanReceive(w, p) && w.actors[p].client.decision.Create? && c == w.actors[p].acks[w.actors[p].received].child
    requires c in w.actors && InvAt(w, p) && InvAt(w, c)
    ensures Silent(w, Receive(w, p), p, c) && (Receive(w, p).failed ==> w.failed)
    ensures Local(w, Receive(w, p), p, c, p) && Local(w, Receive(w, p), p, c, c)
  {
  }

  lemma ReceiveIdKeepsInv(w: World, p: Pid)
    requires Inv(w) && CanReceive(w, p) && w.actors[p].client.decision.Create?
    ensures Inv(Receive(w, p))
  {
    hide Scheduling, Counters, Family, Queue, FamilyAt, CountersOk, ScheduledAt, InvAt, Local;
    Parts(w, p);
    ReceiveIdPartner(w, p);
    var c := w.actors[p].acks[w.actors[p].received].child;
    Parts(w, c);
    SameScheduling(w, Receive(w, p));
    ReceiveIdLocal(w, p, c);
    SilentStep(w, Receive(w, p), p, c);
  }

  lemma ReceiveIdPartner(w: World, p: Pid)
    requires CanReceive(w, p) && w.actors[p].client.decision.Create? && InvAt(w, p)
    ensures w.actors[p].acks[w.actors[p].received].child in w.actors
  {
  }

  lemma AskInHookLocal(w: World, p: Pid, d: Decision, c: Pid)
    requires CanAskInHook(w, p, d) && c == w.actors[p].parent
    requires c in w.actors && InvAt(w, p) && InvAt(w, c)
    ensures Silent(w, AskInHook(w, p, d), p, c) && (AskInHook(w, p, d).failed ==> w.failed)
    ensures Local(w, AskInHook(w, p, d), p, c, p) && Local(w, AskInHook(w, p, d), p, c, c)
  {
  }

  lemma AskInHookKeepsInv(w: World, p: Pid, d: Decision)
    requires Inv(w) && CanAskInHook(w, p, d)
    ensures Inv(AskInHook(w, p, d))
  {
    hide Scheduling, Counters, Family, Queue, FamilyAt, CountersOk, ScheduledAt, InvAt, Local;
    Parts(w, p);
    AskInHookPartner(w, p, d);
    var c := w.actors[p].parent;
    Parts(w, c);
    SameScheduling(w, AskInHook(w, p, d));
    AskInHookLocal(w, p, d, c);
    SilentStep(w, AskInHook(w, p, d), p, c);
  }

  lemma AskInHookPartner(w: World, p: Pid, d: Decision)
    requires CanAskInHook(w, p, d) && InvAt(w, p)
    ensures w.actors[p].parent in w.actors
  {
  }

  lemma QuitLoopLocal(w: World, p: Pid)
    requires InSim(w, p, Handling(Quit)) && InvAt(w, p)
    ensures CountersOk(QuitLoop(w, p).actors[p]) && FamilyAt(QuitLoop(w, p), p)
    ensures Discreet(w.actors[p], QuitLoop(w, p).actors[p], p, p)
  {
    QuitLoopCounters(w, p);
    hide CountersOk;
  }

  lemma QuitLoopCounters(w: World, p: Pid)
    requires InSim(w, p, Handling(Quit)) && CountersOk(w.actors[p])
    ensures CountersOk(QuitLoop(w, p).actors[p])
    ensures ClaimOf(w.actors[p]) == NoClaim && ClaimOf(QuitLoop(w, p).actors[p]) == NoClaim
  {
  }

  lemma QuitLoopScheduling(w: World, p: Pid)
    requires Scheduling(w) && InSim(w, p, Handling(Quit))
    ensures Scheduling(QuitLoop(w, p))
  {
    assert ScheduledAt(w, p);
    forall q | q in QuitLoop(w, p).actors
      ensures ScheduledAt(QuitLoop(w, p), q)
    {
      assert q in w.actors && ScheduledAt(w, q);
    }
  }

  lemma QuitLoopQueue(w: World, p: Pid)
    requires Queue(w) && InSim(w, p, Handling(Quit))
    ensures Queue(QuitLoop(w, p))
  {
  }

  lemma QuitLoopKeepsInv(w: World, p: Pid)
    requires Inv(w) && InSim(w, p, Handling(Quit))
    ensures Inv(QuitLoop(w, p))
  {
    hide Scheduling, Queue, FamilyAt, CountersOk, ScheduledAt, Discreet;
    Parts(w, p);
    QuitLoopScheduling(w, p);
    QuitLoopLocal(w, p);
    QuitLoopQueue(w, p);
    OthersKeepPlace(w, QuitLoop(w, p), p, p);
    OthersCount(w, QuitLoop(w, p), p, p);
  }

  lemma AnnounceLocal(w: World, p: Pid, c: Pid)
    requires CanResume(w, p) && w.actors[p].sim.CreateIssued? && c == w.actors[p].sim.child
    requires c in w.actors && c != p && InvAt(w, p) && InvAt(w, c)
    ensures CountersOk(Resume(w, p).actors[p]) && FamilyAt(Resume(w, p), p) && FamilyAt(Resume(w, p), c)
    ensures Discreet(w.actors[p], Resume(w, p).actors[p], p, c) && Within(ClaimOf(w.actors[p]), p, c)
    ensures Discreet(w.actors[c], Resume(w, p).actors[c], p, c)
    ensures w.actors[c].client.Unborn? && ActorCreate(c) !in w.toCommand
  {
  }

  lemma AnnounceScheduling(w: World, p: Pid)
    requires Scheduling(w) && CanResume(w, p) && w.actors[p].sim.CreateIssued?
    ensures Scheduling(Resume(w, p))
  {
    assert ScheduledAt(w, p);
    forall q | q in Resume(w, p).actors
      ensures ScheduledAt(Resume(w, p), q)
    {
      assert q in w.actors && ScheduledAt(w, q);
    }
  }

  lemma AnnounceQueue(w: World, p: Pid, c: Pid)
    requires Queue(w) && CanResume(w, p) && w.actors[p].sim.CreateIssued? && c == w.actors[p].sim.child
    requires c in w.actors && w.actors[c].client.Unborn? && ActorCreate(c) !in w.toCommand
    ensures Queue(Resume(w, p))
  {
  }

  lemma AnnouncePartner(w: World, p: Pid)
    requires p in w.actors && InvAt(w, p) && w.actors[p].sim.CreateIssued?
    ensures w.actors[p].sim.child in w.actors && w.actors[p].sim.child != p
  {
  }

  lemma AnnounceKeepsInv(w: World, p: Pid)
    requires Inv(w) && CanResume(w, p) && w.actors[p].sim.CreateIssued?
    ensures Inv(Resume(w, p))
  {
    hide Scheduling, Queue, FamilyAt, CountersOk, ScheduledAt, Discreet;
    Parts(w, p);
    AnnouncePartner(w, p);
    var c := w.actors[p].sim.child;
    Parts(w, c);
    AnnounceScheduling(w, p);
    AnnounceLocal(w, p, c);
    AnnounceQueue(w, p, c);
    OthersKeepPlace(w, Resume(w, p), p, c);
    OthersCount(w, Resume(w, p), p, c);
  }

  /** What the round and the end of the engine change, no actor sees. */
  lemma EveryoneKeepsPlace(w: World, w': World)
    requires Family(w) && w'.actors == w.actors
    requires forall q <- w.actors :: ActorCreate(q) in w'.toCommand <==> ActorCreate(q) in w.toCommand
    requires forall p <- w.actors, c <- w.actors | CreatedTogether(w, p, c) :: CreatedTogether(w', p, c)
    ensures Family(w')
  {
    forall q | q in w'.actors
      ensures FamilyAt(w', q)
    {
      assert FamilyAt(w, q);
      FamilyFrame(w, w', q);
    }
  }

  lemma StartRoundScheduling(w: World)
    requires Scheduling(w) && CanStartRound(w)
    ensures Scheduling(StartRound(w))
  {
    forall q | q in StartRound(w).actors
      ensures ScheduledAt(StartRound(w), q)
    {
      assert ScheduledAt(w, q);
    }
  }

  lemma StartRoundKeepsInv(w: World)
    requires Inv(w) && CanStartRound(w)
    ensures Inv(StartRound(w))
  {
    StartRoundScheduling(w);
    hide Scheduling, Family, ScheduledAt;
    EveryoneKeepsPlace(w, StartRound(w));
  }

  lemma WakeUpLocal(w: World, p: Pid)
    requires CanWake(w, p) && InvAt(w, p)
    ensures Local(w, WakeUp(w, p), p, p, p)
  {
  }

  lemma WakeUpScheduling(w: World, p: Pid)
    requires Scheduling(w) && CanWake(w, p)
    ensures Scheduling(WakeUp(w, p))
  {
    forall q | q in WakeUp(w, p).actors
      ensures ScheduledAt(WakeUp(w, p), q)
    {
      assert ScheduledAt(w, q);
    }
  }

  lemma WakeUpKeepsInv(w: World, p: Pid)
    requires Inv(w) && CanWake(w, p)
    ensures Inv(WakeUp(w, p))
  {
    hide Scheduling, Counters, Family, Queue, FamilyAt, CountersOk, ScheduledAt, InvAt, Local;
    Parts(w, p);
    WakeUpScheduling(w, p);
    WakeUpLocal(w, p);
    SilentStep(w, WakeUp(w, p), p, p);
  }

  lemma FinishQueue(w: World)
    requires Queue(w) && CanFinish(w)
    ensures Queue(Finish(w))
  {
  }

  lemma FinishKeepsInv(w: World)
    requires Inv(w) && CanFinish(w)
    ensures Inv(Finish(w))
  {
    SameScheduling(w, Finish(w));
    FinishQueue(w);
    hide Scheduling, Family, Queue, ScheduledAt;
    EveryoneKeepsPlace(w, Finish(w));
  }

  lemma CreateActorLocal(w: World, p: Pid)
    requires InSim(w, p, Handling(Create)) && InvAt(w, p) && w.nextPid !in w.actors && ActorCreate(w.nextPid) !in w.toCommand
    ensures var w', c := CreateActor(w, p), w.nextPid;
            && CountersOk(w'.actors[p]) && CountersOk(w'.actors[c]) && FamilyAt(w', p) && FamilyAt(w', c)
            && Discreet(w.actors[p], w'.actors[p], p, c)
  {
  }

  lemma CreateActorScheduling(w: World, p: Pid)
    requires Scheduling(w) && InSim(w, p, Handling(Create))
    ensures Scheduling(CreateActor(w, p)) && w.nextPid !in w.actors
  {
    assert w.nextPid in w.actors ==> ScheduledAt(w, w.nextPid);
    assert ScheduledAt(w, p);
    forall q | q in CreateActor(w, p).actors
      ensures ScheduledAt(CreateActor(w, p), q)
    {
      assert q in w.actors ==> ScheduledAt(w, q);
    }
  }

  lemma CreateActorQueue(w: World, p: Pid)
    requires Queue(w) && InSim(w, p, Handling(Create)) && w.nextPid !in w.actors
    ensures Queue(CreateActor(w, p)) && ActorCreate(w.nextPid) !in w.toCommand
  {
  }

  lemma CreateActorFamily(w: World, p: Pid)
    requires Family(w) && InSim(w, p, Handling(Create)) && w.nextPid !in w.actors
    requires FamilyAt(CreateActor(w, p), p) && FamilyAt(CreateActor(w, p), w.nextPid)
    requires Discreet(w.actors[p], CreateActor(w, p).actors[p], p, w.nextPid)
    ensures Family(CreateActor(w, p))
  {
    var w', c := CreateActor(w, p), w.nextPid;
    forall q | q in w'.actors
      ensures FamilyAt(w', q)
    {
      if q != p && q != c {
        assert FamilyAt(w, q);
        FamilyFrame(w, w', q);
      }
    }
  }

  lemma CreateActorKeepsInv(w: World, p: Pid)
    requires Inv(w) && InSim(w, p, Handling(Create))
    ensures Inv(CreateActor(w, p))
  {
    hide Scheduling, Queue, Family, FamilyAt, CountersOk, ScheduledAt, Discreet;
    Parts(w, p);
    CreateActorScheduling(w, p);
    CreateActorQueue(w, p);
    CreateActorLocal(w, p);
    CreateActorFamily(w, p);
    OthersCount(w, CreateActor(w, p), p, w.nextPid);
  }

  lemma PopCreateLocal(w: World, c: Pid)
    requires CanPop(w) && w.toCommand[0] == ActorCreate(c) && c in w.actors && InvAt(w, c)
    requires ActorCreate(c) !in w.toCommand[1..] && w.actors[c].client.Unborn?
    ensures !Pop(w).failed || w.failed
    ensures CountersOk(Pop(w).actors[c]) && FamilyAt(Pop(w), c) && Discreet(w.actors[c], Pop(w).actors[c], c, c)
  {
  }

  lemma PopTail(w: World)
    requires Queue(w) && CanPop(w)
    ensures forall m <- w.toCommand :: m in w.toCommand[1..] <==> m != w.toCommand[0]
    ensures match w.toCommand[0]
            case ActorCreate(c) => c in w.actors && w.actors[c].client.Unborn?
            case ActorQuit(p) => p in w.actors && w.actors[p].sim.Done? && p !in w.dropped
            case SimulationFinished => w.toCommand[1..] == [] && w.maestroDone
  {
    assert w.toCommand[0] in w.toCommand;
  }

  lemma PopQueue(w: World)
    requires Queue(w) && CanPop(w)
    requires forall m <- w.toCommand :: m in w.toCommand[1..] <==> m != w.toCommand[0]
    requires match w.toCommand[0]
             case ActorCreate(c) => c in w.actors && w.actors[c].client.Unborn?
             case ActorQuit(p) => p in w.actors && w.actors[p].sim.Done? && p !in w.dropped
             case SimulationFinished => w.toCommand[1..] == [] && w.maestroDone
    ensures Queue(Pop(w))
  {
    var w', q := Pop(w), w.toCommand;
    assert forall i | 0 <= i < |q| - 1 :: w'.toCommand[i] == q[i + 1];
  }

  lemma PopCreateKeepsInv(w: World)
    requires Inv(w) && CanPop(w) && w.toCommand[0].ActorCreate?
    ensures Inv(Pop(w))
  {
    hide Scheduling, Queue, FamilyAt, CountersOk, ScheduledAt, Discreet;
    var c := w.toCommand[0].id;
    PopTail(w);
    PopQueue(w);
    Parts(w, c);
    PopCreateLocal(w, c);
    SameScheduling(w, Pop(w));
    OthersKeepPlace(w, Pop(w), c, c);
    OthersCount(w, Pop(w), c, c);
  }

  lemma PopOtherKeepsInv(w: World)
    requires Inv(w) && CanPop(w) && !w.toCommand[0].ActorCreate?
    ensures Inv(Pop(w))
  {
    hide Scheduling, Queue, Family, ScheduledAt;
    PopTail(w);
    PopQueue(w);
    SameScheduling(w, Pop(w));
    EveryoneKeepsPlace(w, Pop(w));
  }

  /** The reply that a hook waits for never comes: the turn is its creator's, which waits for the hook. */
  lemma HookNeverLearns(w: World, p: Pid)
    requires Inv(w) && p in w.actors && w.actors[p].client.HookAwait?
    ensures !CanLearnInHook(w, p)
  {
    assert CountersOk(w.actors[p]) && FamilyAt(w, p);
  }

  lemma StepKeepsInv(w: World, s: Step)
    requires Inv(w) && Enabled(w, s)
    ensures Inv(Apply(w, s))
  {
    match s
    case NextRound => StartRoundKeepsInv(w);
    case Schedule(p) =>
      assert ScheduledAt(w, p);
      match w.actors[p].sim {
        case Fresh => BeginKeepsInv(w, p);
        case Yielded => StartSpinKeepsInv(w, p);
        case Suspended(_) => ContinueKeepsInv(w, p);
        case _ => AnnounceKeepsInv(w, p);
      }
    case Wake(p) => WakeUpKeepsInv(w, p);
    case MaestroFinish => FinishKeepsInv(w);
    case ReadDecision(p) => ReadKeepsInv(w, p);
    case Simcall(p, blocking) => SuspendKeepsInv(w, p, blocking);
    case Answer(p) => ReplyKeepsInv(w, p);
    case IssueCreate(p) => CreateActorKeepsInv(w, p);
    case QuitActor(p) => QuitLoopKeepsInv(w, p);
    case PopCreateAck(p) => FinishCreateKeepsInv(w, p);
    case PopConnectAck(p) => FinishConnectKeepsInv(w, p);
    case CommandPop => if w.toCommand[0].ActorCreate? { PopCreateKeepsInv(w); } else { PopOtherKeepsInv(w); }
    case CommandConnect(p) => LinkKeepsInv(w, p);
    case SendDecision(p, d) => SendKeepsInv(w, p, d);
    case ReceiveAck(p) =>
      if w.actors[p].client.decision.Create? { ReceiveIdKeepsInv(w, p); } else { ReceiveKeepsInv(w, p); }
    case Launch(p, threaded) => LaunchChildKeepsInv(w, p, threaded);
    case SendConnect(p) => AskConnectKeepsInv(w, p);
    case ConnectDone(p) => EndConnectKeepsInv(w, p);
    case HookRequest(p, d) => AskInHookKeepsInv(w, p, d);
    case HookReply(p) => HookNeverLearns(w, p);
    case PostSemaphore(p) => PostKeepsInv(w, p);
    case SemWait(p) => EndWaitKeepsInv(w, p);
  }

  lemma {:induction false} RunKeepsInv(w: World, steps: seq<Step>)
    requires Inv(w) && IsRun(w, steps)
    ensures Inv(After(w, steps))
    decreases |steps|
  {
    if steps != [] {
      StepKeepsInv(w, steps[0]);
      RunKeepsInv(Apply(w, steps[0]), steps[1..]);
    }
  }
}
