/** What the command thread tells the actors that are created during the simulation: when the client of
    such an actor connects, ACTOR_CONNECTED is pushed with its socket on the queue that the message about
    its creation named, and nothing else is ever pushed. */
module Announcements {
  import opened Wrappers
  import opened Commands
  import opened Ledgers
  import opened ServerRuns

  /** Some connected actor was created with the queue `q`, and has the socket `s`. */
  ghost predicate Announces(m: Table, q: QueueId, s: SocketId) {
    exists id :: id in m && m[id].connectAck == Some(q) && m[id].socket == Some(s)
  }

  ghost predicate PushedOk(c: Control) {
    && (forall id <- c.connections :: c.connections[id].connectAck.Some? <==> c.starts != [] && id !in c.starts[0])
    && (forall q: QueueId, s: SocketId {:trigger Announces(c.connections, q, s)} ::
          multiset(c.pushed)[(q, s)] == if Announces(c.connections, q, s) then 1 else 0)
  }

  ghost predicate Linked(m: Table, s: SocketId) {
    exists id :: id in m && m[id].socket == Some(s)
  }

  // ----- one command

  lemma SamePushed(c: Control, next: Control)
    requires PushedOk(c) && next.connections == c.connections && next.starts == c.starts && next.pushed == c.pushed
    ensures PushedOk(next)
  {
  }

  lemma AddPushed(c: Control, entry: ActorConnection)
    requires PushedOk(c) && c.starts == [] && entry.connectAck.None? && entry.actorId !in c.connections
    ensures PushedOk(c.(connections := c.connections[entry.actorId := entry]))
  {
    var m := c.connections[entry.actorId := entry];
    assert forall q: QueueId, s: SocketId :: !Announces(m, q, s) && !Announces(c.connections, q, s);
  }

  /** Before the simulation starts nothing is pushed, and the entries it starts with name no queue. */
  lemma LaunchPushed(c: Control)
    requires PushedOk(c) && c.starts == []
    ensures PushedOk(Launch(c))
  {
  }

  lemma LinkInitialPushed(c: Control, id: int, s: SocketId)
    requires PushedOk(c) && id in c.connections && c.connections[id].connectAck.None?
    ensures PushedOk(c.(connections := c.connections[id := c.connections[id].(socket := Some(s))],
                        nbConnected := c.nbConnected + 1))
  {
    var m := c.connections[id := c.connections[id].(socket := Some(s))];
    forall q: QueueId, t: SocketId
      ensures Announces(m, q, t) <==> Announces(c.connections, q, t)
    {
      SameAnnouncement(c.connections, id, s, q, t);
    }
  }

  lemma SameAnnouncement(m: Table, id: int, s: SocketId, q: QueueId, t: SocketId)
    requires id in m && (m[id].connectAck != Some(q) || t != s) && !(m[id].socket.Some? && m[id].connectAck == Some(q))
    ensures Announces(m[id := m[id].(socket := Some(s))], q, t) <==> Announces(m, q, t)
  {
    var m' := m[id := m[id].(socket := Some(s))];
    if Announces(m, q, t) {
      var k :| k in m && m[k].connectAck == Some(q) && m[k].socket == Some(t);
      assert k in m' && m'[k].connectAck == Some(q) && m'[k].socket == Some(t);
    }
    if Announces(m', q, t) {
      var k :| k in m' && m'[k].connectAck == Some(q) && m'[k].socket == Some(t);
      assert k in m && m[k].connectAck == Some(q) && m[k].socket == Some(t);
    }
  }

  /** The socket is pushed on the queue of the actor that it was awaited for. */
  lemma LinkCreatedPushed(c: Control, id: int, s: SocketId)
    requires PushedOk(c) && id in c.connections && c.connections[id].connectAck.Some?
    requires c.connections[id].socket.None? && !Linked(c.connections, s)
    ensures PushedOk(c.(connections := c.connections[id := c.connections[id].(socket := Some(s))],
                        nbConnected := c.nbConnected + 1,
                        pushed := c.pushed + [(c.connections[id].connectAck.value, s)]))
  {
    var q0 := c.connections[id].connectAck.value;
    var m := c.connections[id := c.connections[id].(socket := Some(s))];
    var pushed := c.pushed + [(q0, s)];
    forall q: QueueId, t: SocketId
      ensures multiset(pushed)[(q, t)] == if Announces(m, q, t) then 1 else 0
    {
      if q == q0 && t == s {
        assert m[id].connectAck == Some(q) && m[id].socket == Some(t);
        assert !Announces(c.connections, q, t);
      } else {
        SameAnnouncement(c.connections, id, s, q, t);
      }
    }
  }

  lemma CommandPushed(c: Control, command: Command, s: SocketId)
    requires ControlInv(c) && PushedOk(c) && !Linked(c.connections, s) && HandleCommand(c, command, s).Handled?
    ensures PushedOk(HandleCommand(c, command, s).next)
  {
    var next := HandleCommand(c, command, s).next;
    match command {
      case AddActor(actorName, hostName) =>
        if !c.state.Killed? {
          var id := |c.connections| + 2;
          assert id !in c.connections;
          hide PushedOk;
          AddPushed(c, ActorConnection(actorName, hostName, id, None, None));
        }
      case Start =>
        if c.nbConnected == |c.connections| {
          hide PushedOk;
          LaunchPushed(c);
        } else {
          SamePushed(c, next);
        }
      case Connect(id) => ConnectPushed(c, id, s);
      case _ => SamePushed(c, next);
    }
  }

  lemma ConnectPushed(c: Control, id: int, s: SocketId)
    requires ControlInv(c) && PushedOk(c) && !Linked(c.connections, s) && HandleConnect(c, id, s).Handled?
    ensures PushedOk(HandleConnect(c, id, s).next)
  {
    if !c.state.Killed? {
      var c1 := c.(connections := c.connections[id := c.connections[id].(socket := Some(s))],
                   nbConnected := c.nbConnected + 1);
      if c.state.SimulationRunning? {
        LinkCreatedPushed(c, id, s);
      } else {
        assert c.starts == [] && c.connections[id].connectAck.None?;
        LinkInitialPushed(c, id, s);
        LaunchPushed(c1);
      }
    }
  }

  /** A created actor enters the table without a socket. */
  lemma CreatePushed(c: Control, id: int, q: QueueId)
    requires ControlInv(c) && PushedOk(c) && c.starts != [] && HandleCreate(c, id, q).Ok?
    ensures PushedOk(HandleCreate(c, id, q).value)
  {
    var m := HandleCreate(c, id, q).value.connections;
    assert id !in c.starts[0];
    forall r: QueueId, s: SocketId
      ensures Announces(m, r, s) <==> Announces(c.connections, r, s)
    {
      if Announces(c.connections, r, s) {
        var k :| k in c.connections && c.connections[k].connectAck == Some(r) && c.connections[k].socket == Some(s);
        assert m[k] == c.connections[k];
      }
    }
  }

  // ----- runs

  lemma BarelyIsNotLinked(l: Ledger, s: SocketId)
    requires Partition(l) && Links(l) && s in l.barely
    ensures !Linked(l.control.connections, s)
  {
    assert At(l, s, Barely);
  }

  lemma ReceivePushed(l: Ledger)
    requires ControlInv(l.control) && Messages(l) && PushedOk(l.control) && CanReceive(l)
    ensures PushedOk(Receive(l).control)
  {
    match l.queue[0] {
      case ActorCreate(id, _, q) =>
        if id !in l.control.connections {
          CreatePushed(l.control, id, q);
        }
      case _ => SamePushed(l.control, Receive(l).control);
    }
  }

  lemma ActionPushed(l: Ledger, a: Action, signalFd: int, listenerFd: int)
    requires LedgerOk(l, signalFd, listenerFd) && PushedOk(l.control) && Possible(l, a, signalFd, listenerFd)
    ensures PushedOk(Perform(l, a, signalFd, listenerFd).control)
  {
    match a {
      case Obeys(s, c) =>
        BarelyIsNotLinked(l, s);
        hide PushedOk, LedgerOk;
        CommandPushed(l.control, c, s);
      case Receives => hide PushedOk; ReceivePushed(l);
      case _ => hide PushedOk, LedgerOk;
    }
  }

  lemma {:induction false} RunPushed(l: Ledger, run: seq<Action>, signalFd: int, listenerFd: int)
    requires LedgerOk(l, signalFd, listenerFd) && PushedOk(l.control) && IsRun(l, run, signalFd, listenerFd)
    ensures PushedOk(After(l, run, signalFd, listenerFd).control)
    decreases |run|
  {
    if run != [] {
      ActionKeepsOk(l, run[0], signalFd, listenerFd);
      ActionPushed(l, run[0], signalFd, listenerFd);
      hide PushedOk, LedgerOk, Possible, Perform;
      RunPushed(Perform(l, run[0], signalFd, listenerFd), run[1..], signalFd, listenerFd);
    }
  }

  // ----- the queues come from the messages about creations

  /** SimGrid has announced the actor `id` with the queue `q` for its connection. */
  ghost predicate WasCreated(run: seq<Action>, id: int, q: QueueId) {
    exists canConnectAck :: Creates(id, canConnectAck, q) in run
  }

  ghost predicate Sources(run: seq<Action>, l: Ledger) {
    var m := l.control.connections;
    && (forall i <- l.queue :: i.ActorCreate? ==> WasCreated(run, i.id, i.connectAck))
    && (forall id <- m :: m[id].connectAck.Some? ==> WasCreated(run, id, m[id].connectAck.value))
    && (forall id: int, q: QueueId | WasCreated(run, id, q) ::
          if id in m then m[id].connectAck == Some(q)
          else Pending(l.queue, id, q))
  }

  /** The message about the creation of `id` is not handled yet. */
  ghost predicate Pending(queue: seq<InterthreadMessage>, id: int, q: QueueId) {
    exists i :: i in queue && i.ActorCreate? && i.id == id && i.connectAck == q
  }

  lemma OneMoreCreated(run: seq<Action>, a: Action)
    ensures forall id: int, q: QueueId :: WasCreated(run + [a], id, q) <==>
              WasCreated(run, id, q) || (a.Creates? && a.id == id && a.connectAck == q)
  {
    forall id: int, q: QueueId
      ensures WasCreated(run + [a], id, q) <==> WasCreated(run, id, q) || (a.Creates? && a.id == id && a.connectAck == q)
    {
      if WasCreated(run, id, q) {
        var p :| Creates(id, p, q) in run;
        assert Creates(id, p, q) in run + [a];
      }
      if a.Creates? && a.id == id && a.connectAck == q {
        assert Creates(id, a.canConnectAck, q) in run + [a];
      }
    }
  }

  /** Commands keep the entries with their queues, and add entries without one, before the start only. */
  lemma CommandKeepsQueues(c: Control, command: Command, s: SocketId)
    requires ControlInv(c) && HandleCommand(c, command, s).Handled?
    ensures var m, m' := c.connections, HandleCommand(c, command, s).next.connections;
            && (forall id <- m :: id in m' && m'[id].connectAck == m[id].connectAck)
            && (forall id <- m' :: id !in m ==> m'[id].connectAck.None? && c.starts == [])
  {
  }

  lemma SourcesKept(run: seq<Action>, a: Action, l: Ledger, l': Ledger)
    requires Sources(run, l) && !a.Creates?
    requires var m, m' := l.control.connections, l'.control.connections;
             && (forall id <- m :: id in m' && m'[id].connectAck == m[id].connectAck)
             && (forall id <- m' :: id !in m ==> m'[id].connectAck.None? && l.queue == [])
    requires forall i :: i in l'.queue && i.ActorCreate? <==> i in l.queue && i.ActorCreate?
    ensures Sources(run + [a], l')
  {
    OneMoreCreated(run, a);
    forall id: int, q: QueueId | Pending(l.queue, id, q)
      ensures Pending(l'.queue, id, q)
    {
    }
    hide WasCreated, Pending;
    forall id: int, q: QueueId | WasCreated(run + [a], id, q)
      ensures if id in l'.control.connections then l'.control.connections[id].connectAck == Some(q)
              else Pending(l'.queue, id, q)
    {
      assert WasCreated(run, id, q);
      if id !in l.control.connections {
        assert Pending(l.queue, id, q);
        NothingPending(l.queue, id, q);
      }
    }
  }

  lemma NothingPending(queue: seq<InterthreadMessage>, id: int, q: QueueId)
    ensures Pending(queue, id, q) ==> queue != []
  {
  }

  lemma CreateSources(run: seq<Action>, l: Ledger, id: int, p: QueueId, q: QueueId)
    requires Sources(run, l) && id !in l.control.connections && forall i <- l.queue :: i.ActorCreate? ==> i.id != id
    ensures Sources(run + [Creates(id, p, q)], Create(l, id, p, q))
  {
    var l' := Create(l, id, p, q);
    OneMoreCreated(run, Creates(id, p, q));
    hide WasCreated;
    assert ActorCreate(id, p, q) in l'.queue;
    assert Pending(l'.queue, id, q);
    forall k: int, r: QueueId | Pending(l.queue, k, r)
      ensures Pending(l'.queue, k, r)
    {
      var i :| i in l.queue && i.ActorCreate? && i.id == k && i.connectAck == r;
      assert i in l'.queue;
    }
  }

  lemma ReceiveSources(run: seq<Action>, l: Ledger)
    requires Sources(run, l) && Messages(l) && CanReceive(l)
    ensures Sources(run + [Receives], Receive(l))
  {
    OneMoreCreated(run, Receives);
    TailOf(l.queue);
    if l.queue[0].ActorCreate? {
      ReceiveCreateSources(run, l);
    } else {
      hide WasCreated, Messages, CanReceive, HandleCreate;
      SourcesKept(run, Receives, l, Receive(l));
    }
  }

  lemma ReceiveCreateSources(run: seq<Action>, l: Ledger)
    requires Sources(run, l) && Messages(l) && CanReceive(l) && l.queue[0].ActorCreate?
    ensures Sources(run + [Receives], Receive(l))
  {
    OneMoreCreated(run, Receives);
    TailOf(l.queue);
    var head, m, l' := l.queue[0], l.control.connections, Receive(l);
    assert head in l.queue && head.id !in m;
    assert l'.queue == l.queue[1..];
    assert l'.control.connections
        == m[head.id := ActorConnection("unset", "unset", head.id, None, Some(head.connectAck))];
    OneOfEach(l);
    hide WasCreated, Messages, CanReceive, Receive;
    forall id: int, q: QueueId | WasCreated(run, id, q)
      ensures if id in l'.control.connections then l'.control.connections[id].connectAck == Some(q)
              else Pending(l'.queue, id, q)
    {
      if id !in m {
        assert Pending(l.queue, id, q);
        var i :| i in l.queue && i.ActorCreate? && i.id == id && i.connectAck == q;
        if id == head.id {
          assert i == head;
        } else {
          assert i in l'.queue;
        }
      }
    }
  }

  lemma OneOfEach(l: Ledger)
    requires Messages(l) && l.queue != [] && l.queue[0].ActorCreate?
    ensures forall i <- l.queue :: i.ActorCreate? && i.id == l.queue[0].id ==> i == l.queue[0]
  {
    forall i <- l.queue | i.ActorCreate? && i.id == l.queue[0].id
      ensures i == l.queue[0]
    {
      var k :| 0 <= k < |l.queue| && l.queue[k] == i;
    }
  }

  lemma QueueIsEmpty(l: Ledger)
    requires Messages(l)
    ensures l.control.starts == [] ==> l.queue == []
  {
  }

  lemma ObeySources(run: seq<Action>, l: Ledger, s: SocketId, c: Command)
    requires ControlInv(l.control) && Messages(l) && Sources(run, l) && s in l.fds && HandleCommand(l.control, c, s).Handled?
    ensures var o := HandleCommand(l.control, c, s);
            Sources(run + [Obeys(s, c)], Settle(l, s, c, o.next, o.dropClient))
  {
    CommandKeepsQueues(l.control, c, s);
    QueueIsEmpty(l);
    hide Sources, HandleCommand, ControlInv, Messages;
    var o := HandleCommand(l.control, c, s);
    SourcesKept(run, Obeys(s, c), l, Settle(l, s, c, o.next, o.dropClient));
  }

  /** The other actions leave the table alone, and say nothing about creations. */
  lemma OtherSources(run: seq<Action>, l: Ledger, a: Action, signalFd: int, listenerFd: int)
    requires Sources(run, l) && Possible(l, a, signalFd, listenerFd) && !a.Creates? && !a.Receives? && !a.Obeys?
    ensures Sources(run + [a], Perform(l, a, signalFd, listenerFd))
  {
    var l' := Perform(l, a, signalFd, listenerFd);
    assert l'.control == l.control && (l'.queue == l.queue || exists m :: l'.queue == l.queue + [m] && !m.ActorCreate?) by {
      hide Sources;
    }
    hide Possible, Perform, Sources;
    SourcesKept(run, a, l, l');
  }

  lemma ActionSources(run: seq<Action>, l: Ledger, a: Action, signalFd: int, listenerFd: int)
    requires LedgerOk(l, signalFd, listenerFd) && Sources(run, l) && Possible(l, a, signalFd, listenerFd)
    ensures Sources(run + [a], Perform(l, a, signalFd, listenerFd))
  {
    hide Sources, HandleCommand, ControlInv, Partition, Descriptors, Links, Messages, Victims, CanReceive, Receive, Settle;
    match a {
      case Creates(id, p, q) => CreateSources(run, l, id, p, q);
      case Receives => ReceiveSources(run, l);
      case Obeys(s, c) => ObeySources(run, l, s, c);
      case _ => OtherSources(run, l, a, signalFd, listenerFd);
    }
  }

  lemma {:induction false} RunsSplit(l: Ledger, a: seq<Action>, b: seq<Action>, signalFd: int, listenerFd: int)
    requires IsRun(l, a + b, signalFd, listenerFd)
    ensures IsRun(l, a, signalFd, listenerFd) && IsRun(After(l, a, signalFd, listenerFd), b, signalFd, listenerFd)
    ensures After(l, a + b, signalFd, listenerFd) == After(After(l, a, signalFd, listenerFd), b, signalFd, listenerFd)
    decreases |a|
  {
    hide Possible, Perform;
    if a == [] {
      assert a + b == b;
    } else {
      assert (a + b)[1..] == a[1..] + b;
      RunsSplit(Perform(l, a[0], signalFd, listenerFd), a[1..], b, signalFd, listenerFd);
    }
  }

  lemma {:induction false} RunSources(run: seq<Action>, signalFd: int, listenerFd: int)
    requires signalFd != listenerFd && IsRun(InitialLedger(signalFd, listenerFd), run, signalFd, listenerFd)
    ensures Sources(run, After(InitialLedger(signalFd, listenerFd), run, signalFd, listenerFd))
    decreases |run|
  {
    var l0 := InitialLedger(signalFd, listenerFd);
    if run == [] {
      NoSources(signalFd, listenerFd);
    } else {
      var first, last := run[..|run| - 1], run[|run| - 1];
      assert first + [last] == run;
      RunsSplit(l0, first, [last], signalFd, listenerFd);
      RunSources(first, signalFd, listenerFd);
      ReachedIsOk(first, signalFd, listenerFd);
      var l := After(l0, first, signalFd, listenerFd);
      hide Sources, LedgerOk, ControlInv, Possible, Perform;
      assert [last][1..] == [] && Possible(l, last, signalFd, listenerFd);
      ActionSources(first, l, last, signalFd, listenerFd);
    }
  }

  lemma NoSources(signalFd: int, listenerFd: int)
    ensures Sources([], InitialLedger(signalFd, listenerFd)) && PushedOk(InitialLedger(signalFd, listenerFd).control)
  {
  }

  /** In every run, for each actor that was created while the simulation runs: its entry has the queue of the
      message about its creation; once it has a socket, this socket was pushed on this queue, exactly once;
      and nothing else was ever pushed. */
  lemma EachConnectionIsAnnouncedOnce(run: seq<Action>, signalFd: int, listenerFd: int)
    requires signalFd != listenerFd && IsRun(InitialLedger(signalFd, listenerFd), run, signalFd, listenerFd)
    ensures var c := After(InitialLedger(signalFd, listenerFd), run, signalFd, listenerFd).control;
            var m := c.connections;
            && (forall id <- m :: c.starts != [] && id !in c.starts[0] <==> exists q: QueueId :: WasCreated(run, id, q))
            && (forall id: int, q: QueueId | WasCreated(run, id, q) && id in m ::
                  && m[id].connectAck == Some(q)
                  && (m[id].socket.Some? ==> multiset(c.pushed)[(q, m[id].socket.value)] == 1))
            && (forall p <- c.pushed ::
                  exists id :: WasCreated(run, id, p.0) && id in m && m[id].socket == Some(p.1))
  {
    var l0 := InitialLedger(signalFd, listenerFd);
    InitialLedgerOk(signalFd, listenerFd);
    NoSources(signalFd, listenerFd);
    RunPushed(l0, run, signalFd, listenerFd);
    RunSources(run, signalFd, listenerFd);
    hide LedgerOk, IsRun, After, WasCreated;
    AnnouncedOnce(run, After(l0, run, signalFd, listenerFd));
  }

  lemma AnnouncedOnce(run: seq<Action>, l: Ledger)
    requires PushedOk(l.control) && Sources(run, l)
    ensures var c, m := l.control, l.control.connections;
            && (forall id <- m :: c.starts != [] && id !in c.starts[0] <==> exists q: QueueId :: WasCreated(run, id, q))
            && (forall id: int, q: QueueId | WasCreated(run, id, q) && id in m ::
                  && m[id].connectAck == Some(q)
                  && (m[id].socket.Some? ==> multiset(c.pushed)[(q, m[id].socket.value)] == 1))
            && (forall p <- c.pushed ::
                  exists id :: WasCreated(run, id, p.0) && id in m && m[id].socket == Some(p.1))
  {
    hide WasCreated;
    var c, m := l.control, l.control.connections;
    forall id: int, q: QueueId | WasCreated(run, id, q) && id in m && m[id].socket.Some?
      ensures multiset(c.pushed)[(q, m[id].socket.value)] == 1
    {
      assert m[id].connectAck == Some(q);
      assert Announces(m, q, m[id].socket.value);
    }
    forall p <- c.pushed
      ensures exists id :: WasCreated(run, id, p.0) && id in m && m[id].socket == Some(p.1)
    {
      assert multiset(c.pushed)[(p.0, p.1)] > 0 by {
        assert p in multiset(c.pushed) && p == (p.0, p.1);
      }
      assert Announces(m, p.0, p.1);
      var id :| id in m && m[id].connectAck == Some(p.0) && m[id].socket == Some(p.1);
      assert WasCreated(run, id, p.0);
    }
  }
}
