/** The invariant of the creation protocol, kept by every step. */
module CreationInvariant {
  import opened Wrappers
  import opened CreationProtocol

  predicate OnCpu(s: SimPhase) {
    s.SpinConnect? || s.Reading? || s.Handling? || s.SpinCreateAck?
  }

  /** Lockstep of one socket: what was sent, read, acknowledged and received, by phase. */
  predicate CountersOk(a: Actor) {
    && a.received <= |a.acks| <= a.read <= |a.sent| <= a.received + 1
    && (forall k | 0 <= k < |a.acks| :: a.acks[k].answers == a.sent[k] && !a.sent[k].Quit?)
    && (match a.sim
        case Fresh => a.read == 0
        case Yielded => a.read == 0
        case SpinConnect => a.read == 0
        case Reading => a.read == |a.acks|
        case Handling(d) => a.read == |a.acks| + 1 && a.sent[a.read - 1] == d
        case Suspended(d) => a.read == |a.acks| + 1 && a.sent[a.read - 1] == d
        case CreateIssued(_) => a.read == |a.acks| + 1 && a.sent[a.read - 1] == Create
        case SpinCreateAck(_) => a.read == |a.acks| + 1 && a.sent[a.read - 1] == Create
        case Done => a.read == |a.acks| + 1 && a.sent[a.read - 1] == Quit)
    && (match a.client
        case User => |a.sent| == a.received
        case GotId(_) => |a.sent| == a.received > 0
        case WaitSem(_) => |a.sent| == a.received > 0
        case AwaitAck(d) => |a.sent| == a.received + 1 && a.sent[a.received] == d && !d.Quit?
        case HookAwait(d) => a.received == 0 && a.sent == [d] && !d.Quit?
        case Gone => |a.sent| == a.received + 1 && a.sent[a.received] == Quit
        case _ => |a.sent| == 0)
  }

  /** The actor whose turn it is executes; the others wait for a turn, or for an event. */
  ghost predicate ScheduledAt(w: World, p: Pid)
    requires p in w.actors
  {
    var s := w.actors[p].sim;
    && p < w.nextPid
    && (OnCpu(s) <==> w.current == Some(p))
    && (p in w.toRun || p in w.ready ==> s.Fresh? || s.Yielded? || s.Suspended? || s.CreateIssued?)
    && (s.Fresh? || s.Yielded? || s.CreateIssued? ==> p in w.toRun || p in w.ready)
  }

  ghost predicate Scheduling(w: World) {
    && w.toRun !! w.ready
    && w.toRun <= w.actors.Keys && w.ready <= w.actors.Keys
    && (w.current.Some? ==> w.current.value in w.actors)
    && (forall p {:trigger ScheduledAt(w, p)} | p in w.actors :: ScheduledAt(w, p))
  }

  /** What the position of a creator and of its client says about the creation in progress. */
  datatype Claim =
    | NoClaim
    | Issued(c: Pid)     // inside the Actor::create simcall
    | Announced(c: Pid)  // waiting for the command thread
    | Unread(c: Pid)     // acknowledged, the client has not read it yet
    | Owned(c: Pid)      // the client holds the id
    | Waiting(c: Pid)    // the client waits on the semaphore

  function ClaimOf(b: Actor): Claim {
    if b.sim.CreateIssued? then Issued(b.sim.child)
    else if b.sim.SpinCreateAck? then Announced(b.sim.child)
    else if b.client == AwaitAck(Create) && b.received < |b.acks| then Unread(b.acks[b.received].child)
    else if b.client.GotId? then Owned(b.client.child)
    else if b.client.WaitSem? then Waiting(b.client.child)
    else NoClaim
  }

  function ClaimOn(b: Actor, c: Pid): Claim {
    var claim := ClaimOf(b);
    if claim.NoClaim? || claim.c != c then NoClaim else claim
  }

  /** The child and its creator are runnable together; a child that ran first waits for the next
      round, and its creator still runs in this one. */
  ghost predicate CreatedTogether(w: World, p: Pid, c: Pid)
    requires c in w.actors
  {
    || (w.actors[c].sim.Fresh? && p in w.ready && c in w.ready)
    || (w.actors[c].sim.Fresh? && p in w.toRun && c in w.toRun)
    || (w.actors[c].sim.Yielded? && p in w.toRun && c in w.ready)
  }

  /** The life of a created actor until a client owns its id. */
  ghost predicate UnbornOk(w: World, c: Pid)
    requires c in w.actors && w.actors[c].parent in w.actors
  {
    var a := w.actors[c];
    && (a.sim.Fresh? || a.sim.Yielded?) && !a.threaded
    && match ClaimOn(w.actors[a.parent], c)
       case Issued(_) =>
         a.entry.Unknown? && a.canConnectAck == [] && ActorCreate(c) !in w.toCommand && CreatedTogether(w, a.parent, c)
       case Announced(_) =>
         if ActorCreate(c) in w.toCommand then a.entry.Unknown? && a.canConnectAck == []
         else a.entry.Expected? && a.canConnectAck == [ActorCreateAck]
       case Unread(_) => a.entry.Expected? && a.canConnectAck == [] && ActorCreate(c) !in w.toCommand
       case Owned(_) => a.entry.Expected? && a.canConnectAck == [] && ActorCreate(c) !in w.toCommand
       case _ => false
  }

  /** Between the creation of its thread and the post of its semaphore. */
  predicate Hooking(a: Actor) {
    a.threaded && (a.client.BeforeConnect? || a.client.Connecting? || a.client.AfterConnect? || a.client.HookAwait?)
  }

  /** A created actor whose client exists. */
  predicate BornOk(a: Actor) {
    && a.canConnectAck == []
    && (match a.client
        case BeforeConnect => a.entry.Expected?
        case Connecting => if a.connectPending then a.entry.Expected? else a.entry.Linked?
        case _ => a.entry.Linked?)
    && (a.client.AfterConnect? || a.client.HookAwait? || a.client.Posted? ==> a.threaded)
    && (a.client.HookAwait? ==> a.sim.Fresh? || a.sim.Yielded?)
    && (a.threaded && a.client.User? ==> a.received > 0)
  }

  ghost predicate ChildOk(w: World, c: Pid)
    requires c in w.actors
  {
    var a := w.actors[c];
    && a.parent in w.actors && a.parent < c
    && (if a.client.Unborn? then UnbornOk(w, c) else BornOk(a) && ActorCreate(c) !in w.toCommand)
    && (!a.client.Unborn? ==> w.actors[a.parent].received > 0)
    && (a.connectPending ==> a.client.Connecting?)
    && (!a.entry.Linked? ==> a.sim.Fresh? || a.sim.Yielded? || a.sim.SpinConnect?)
    && a.connectAck == (if a.entry.Linked? && (a.sim.Fresh? || a.sim.Yielded? || a.sim.SpinConnect?)
                        then [ActorConnected] else [])
    && (Hooking(a) ==> ClaimOf(w.actors[a.parent]) == Waiting(c) && a.semaphore == 0)
    && (a.semaphore > 0 ==> ClaimOf(w.actors[a.parent]) == Waiting(c) && a.semaphore == 1 && !a.client.Unborn?)
  }

  ghost predicate RootOk(w: World, p: Pid)
    requires p in w.actors
  {
    var a := w.actors[p];
    && a.entry.Linked? && !a.connectPending && a.semaphore == 0
    && !a.client.Unborn? && !a.client.BeforeConnect? && !a.client.Connecting? && !a.client.AfterConnect?
    && !a.client.HookAwait? && !a.client.Posted? && !a.threaded
    && !a.sim.Yielded? && !a.sim.SpinConnect?
    && ActorCreate(p) !in w.toCommand
  }

  /** What a creator claims is true of the child it names. */
  ghost predicate CreatorOk(w: World, p: Pid)
    requires p in w.actors
  {
    var claim := ClaimOf(w.actors[p]);
    claim.NoClaim? ||
    (&& claim.c in w.actors && w.actors[claim.c].dynamic && w.actors[claim.c].parent == p
     && if claim.Waiting? then !w.actors[claim.c].client.Unborn?
                               && (Hooking(w.actors[claim.c]) || w.actors[claim.c].semaphore == 1)
        else w.actors[claim.c].client.Unborn?)
  }

  ghost predicate FamilyAt(w: World, p: Pid)
    requires p in w.actors
  {
    CreatorOk(w, p) && if w.actors[p].dynamic then ChildOk(w, p) else RootOk(w, p)
  }

  ghost predicate Queue(w: World) {
    && (forall i, j | 0 <= i < j < |w.toCommand| :: w.toCommand[i] != w.toCommand[j])
    && (forall i | 0 <= i < |w.toCommand| ::
          match w.toCommand[i]
          case ActorCreate(c) => c in w.actors && w.actors[c].client.Unborn?
          case ActorQuit(p) => p in w.actors && w.actors[p].sim.Done? && p !in w.dropped
          case SimulationFinished => i == |w.toCommand| - 1 && w.maestroDone && !w.finished)
    && (forall p <- w.actors :: w.actors[p].sim.Done? ==> p in w.dropped || ActorQuit(p) in w.toCommand)
    && (forall p <- w.dropped :: p in w.actors && w.actors[p].sim.Done?)
    && (w.maestroDone ==> AllDone(w) && (w.finished || SimulationFinished in w.toCommand))
    && (w.finished ==> w.toCommand == [] && w.maestroDone)
  }

  ghost predicate Counters(w: World) {
    forall p {:trigger CountersOk(w.actors[p])} | p in w.actors :: CountersOk(w.actors[p])
  }

  ghost predicate Family(w: World) {
    forall p {:trigger FamilyAt(w, p)} | p in w.actors :: FamilyAt(w, p)
  }

  ghost predicate Inv(w: World) {
    && !w.failed
    && Scheduling(w)
    && Counters(w)
    && Family(w)
    && Queue(w)
  }

  /** All that an actor shows to its creator. */
  ghost predicate SameFace(a: Actor, b: Actor) {
    && a.dynamic == b.dynamic && a.parent == b.parent && a.client.Unborn? == b.client.Unborn?
    && Hooking(a) == Hooking(b) && a.semaphore == b.semaphore
  }

  /** An actor whose record, parent's claim and claimed child look the same keeps its place. */
  lemma FamilyFrame(w: World, w': World, q: Pid)
    requires q in w.actors && FamilyAt(w, q)
    requires q in w'.actors && w'.actors[q] == w.actors[q]
    requires w.actors.Keys <= w'.actors.Keys
    requires ActorCreate(q) in w'.toCommand <==> ActorCreate(q) in w.toCommand
    requires var r := w.actors[q].parent;
             r in w.actors ==> ClaimOn(w'.actors[r], q) == ClaimOn(w.actors[r], q)
                               && w.actors[r].received <= w'.actors[r].received
    requires var claim := ClaimOf(w.actors[q]);
             !claim.NoClaim? && claim.c in w.actors ==> SameFace(w.actors[claim.c], w'.actors[claim.c])
    requires var r := w.actors[q].parent;
             r in w.actors && ClaimOf(w.actors[r]) == Issued(q) && CreatedTogether(w, r, q) ==> CreatedTogether(w', r, q)
    ensures FamilyAt(w', q)
  {
  }

  predicate Within(claim: Claim, p: Pid, c: Pid) {
    claim.NoClaim? || claim.c == p || claim.c == c
  }

  /** What a step may do to the record of one of the two actors it touches. */
  ghost predicate Discreet(a: Actor, a': Actor, p: Pid, c: Pid) {
    && (ClaimOf(a') == ClaimOf(a) || (Within(ClaimOf(a), p, c) && Within(ClaimOf(a'), p, c)))
    && (SameFace(a, a') || (a.dynamic && a.parent in {p, c}))
    && a.received <= a'.received
  }

  /** A step that touches two actors at most, and changes claims and faces only between them, leaves
      every other actor's place in the protocol alone. */
  lemma OthersKeepPlace(w: World, w': World, p: Pid, c: Pid)
    requires Family(w)
    requires p in w.actors && c in w.actors && w'.actors.Keys == w.actors.Keys
    requires forall q | q in w.actors && q != p && q != c :: w'.actors[q] == w.actors[q]
    requires Discreet(w.actors[p], w'.actors[p], p, c) && Discreet(w.actors[c], w'.actors[c], p, c)
    requires forall q | q in w.actors && q != p && q != c :: ActorCreate(q) in w'.toCommand <==> ActorCreate(q) in w.toCommand
    requires w'.toRun == w.toRun || (w'.toRun == w.toRun - {p} && Within(ClaimOf(w.actors[p]), p, c))
    requires w'.ready == w.ready || w'.ready == w.ready + {p}
    requires FamilyAt(w', p) && FamilyAt(w', c)
    ensures Family(w')
  {
    forall q | q in w'.actors
      ensures FamilyAt(w', q)
    {
      if q != p && q != c {
        assert FamilyAt(w, q);
        FamilyFrame(w, w', q);
      }
    }
  }

  lemma AnswerCounts(a: Actor, d: Decision, child: Pid)
    requires CountersOk(a)
    requires a.sim == Handling(d) || (a.sim.SpinCreateAck? && d.Create?)
    requires !d.Quit?
    ensures CountersOk(a.(sim := Reading, acks := a.acks + AcksFor(d, child)))
  {
  }

  lemma SendCounts(a: Actor, d: Decision)
    requires CountersOk(a)
    requires a.client.User? || (a.client.Posted? && !d.Quit?)
    ensures CountersOk(a.(client := if d.Quit? then Gone else AwaitAck(d), sent := a.sent + [d]))
  {
  }

  /** A step that sends nothing to the command thread, and touches two actors at most. */
  ghost predicate Silent(w: World, w': World, p: Pid, c: Pid) {
    && p in w.actors && c in w.actors && w'.actors.Keys == w.actors.Keys
    && (forall q | q in w.actors && q != p && q != c :: w'.actors[q] == w.actors[q])
    && w'.toCommand == w.toCommand && w'.dropped == w.dropped
    && w'.maestroDone == w.maestroDone && w'.finished == w.finished
    && (w'.toRun == w.toRun || (w'.toRun == w.toRun - {p} && Within(ClaimOf(w.actors[p]), p, c)))
    && (w'.ready == w.ready || w'.ready == w.ready + {p})
  }

  /** What such a step has to show of each of the two. */
  ghost predicate Local(w: World, w': World, p: Pid, c: Pid, q: Pid)
    requires q in w.actors && q in w'.actors
  {
    && CountersOk(w'.actors[q]) && FamilyAt(w', q) && Discreet(w.actors[q], w'.actors[q], p, c)
    && (w'.actors[q].sim.Done? <==> w.actors[q].sim.Done?)
    && (w'.actors[q].client.Unborn? || ActorCreate(q) !in w.toCommand)
  }

  lemma SilentStep(w: World, w': World, p: Pid, c: Pid)
    requires Inv(w) && Silent(w, w', p, c) && !w'.failed && Scheduling(w')
    requires Local(w, w', p, c, p) && Local(w, w', p, c, c)
    ensures Inv(w')
  {
    hide Scheduling, FamilyAt, CountersOk, Discreet;
    SilentQueue(w, w', p, c);
    OthersKeepPlace(w, w', p, c);
    OthersCount(w, w', p, c);
  }

  lemma SilentQueue(w: World, w': World, p: Pid, c: Pid)
    requires Queue(w) && Silent(w, w', p, c)
    requires forall q | q in {p, c} :: w'.actors[q].sim.Done? <==> w.actors[q].sim.Done?
    requires forall q | q in {p, c} :: w'.actors[q].client.Unborn? || ActorCreate(q) !in w.toCommand
    ensures Queue(w')
  {
    assert forall q <- w.actors :: w'.actors[q].sim.Done? <==> w.actors[q].sim.Done?;
    assert forall q <- w.actors | ActorCreate(q) in w.toCommand :: w'.actors[q].client.Unborn?;
  }

  lemma OthersCount(w: World, w': World, p: Pid, c: Pid)
    requires Counters(w) && w'.actors.Keys <= w.actors.Keys + {p, c}
    requires forall q | q in w'.actors && q != p && q != c :: w'.actors[q] == w.actors[q]
    requires forall q | q in w'.actors && (q == p || q == c) :: CountersOk(w'.actors[q])
    ensures Counters(w')
  {
    forall q | q in w'.actors
      ensures CountersOk(w'.actors[q])
    {
      assert q != p && q != c ==> CountersOk(w.actors[q]);
    }
  }

  /** Steps of clients and of the command thread do not touch the scheduler. */
  lemma SameScheduling(w: World, w': World)
    requires Scheduling(w) && w'.actors.Keys == w.actors.Keys
    requires forall q <- w.actors :: w'.actors[q].sim == w.actors[q].sim
    requires w'.toRun == w.toRun && w'.ready == w.ready && w'.current == w.current && w'.nextPid == w.nextPid
    ensures Scheduling(w')
  {
    forall q | q in w'.actors
      ensures ScheduledAt(w', q)
    {
      assert ScheduledAt(w, q);
    }
  }

  /** What the invariant says of one actor. */
  ghost predicate InvAt(w: World, p: Pid)
    requires p in w.actors
  {
    ScheduledAt(w, p) && CountersOk(w.actors[p]) && FamilyAt(w, p)
  }

  lemma Parts(w: World, p: Pid)
    requires Inv(w) && p in w.actors
    ensures Scheduling(w) && Counters(w) && Family(w) && Queue(w) && InvAt(w, p)
  {
  }
}
