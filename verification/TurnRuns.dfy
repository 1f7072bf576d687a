/** The event loop against the runs: each turn of the loop is a sequence of the actions that the run
    theorems are about. */
module TurnRuns {
  import opened Wrappers
  import opened Wire
  import opened Commands
  import opened Ledgers
  import opened Settling
  import opened Sweeping
  import opened ServerRuns
  import opened Serve

  /** Settling a socket is obeying the command of its first frame. */
  lemma SettledIsObeyed(l: Ledger, s: SocketId, frame: ReadResult, decode: Decoder, signalFd: int, listenerFd: int)
    returns (a: Action)
    requires s in l.fds && s in l.barely && !l.control.state.SimulationFinished? && Settled(l, s, frame, decode).Ok?
    ensures Possible(l, a, signalFd, listenerFd)
    ensures Perform(l, a, signalFd, listenerFd) == Settled(l, s, frame, decode).value.0
    ensures frame.content != [] && decode(frame.content).Some? && a == Obeys(s, decode(frame.content).value)
  {
    assert HandleCommand(l.control, TypeNotSet, s).Refused?;
    hide HandleCommand, Settle;
    a := Obeys(s, CommandOf(frame.content, decode));
  }

  /** The traversal of the barely connected sockets, in any order. */
  lemma {:induction false} SettleAllIsRun(l: Ledger, order: seq<SocketId>, inputs: map<SocketId, seq<byte>>, decode: Decoder,
                                          signalFd: int, listenerFd: int)
    returns (run: seq<Action>)
    requires LedgerOk(l, signalFd, listenerFd) && !l.control.state.SimulationFinished?
    requires Distinct(order) && forall s <- order :: s in inputs && s in l.fds && s in l.barely
    requires SettleAll(l, order, inputs, decode).Ok?
    ensures IsRun(l, run, signalFd, listenerFd)
    ensures After(l, run, signalFd, listenerFd) == SettleAll(l, order, inputs, decode).value.0
    decreases |order|
  {
    hide LedgerOk, Settled, IsRun, After, ReadFrame, Possible, Perform;
    NoAction(l, signalFd, listenerFd);
    if order == [] {
      run := [];
    } else {
      var n := |order| - 1;
      var before := SettleAll(l, order[..n], inputs, decode).value.0;
      var frame := ReadFrame(inputs[order[n]], ParserOf(decode));
      SettleAllKeepsOk(l, order[..n], inputs, decode, signalFd, listenerFd);
      SettleAllBarely(l, order[..n], inputs, decode);
      run := SettleAllIsRun(l, order[..n], inputs, decode, signalFd, listenerFd);
      var last := SettledIsObeyed(before, order[n], frame, decode, signalFd, listenerFd);
      OneAction(before, last, signalFd, listenerFd);
      RunsJoin(l, run, [last], signalFd, listenerFd);
      run := run + [last];
    }
  }

  /** The traversal of the dropped sockets. */
  lemma {:induction false} SweepIsRun(l: Ledger, closed: set<SocketId>, k: nat, signalFd: int, listenerFd: int)
    returns (run: seq<Action>)
    requires !l.control.state.SimulationFinished? && k <= |l.dropped|
    requires Distinct(l.dropped) && forall s <- l.dropped :: s in l.fds && s in l.place
    ensures IsRun(l, run, signalFd, listenerFd)
    ensures After(l, run, signalFd, listenerFd) == Sweep(l, Visited(l, closed, k))
    decreases k
  {
    SweepStart(l, closed);
    if k == 0 {
      run := [];
    } else {
      run := SweepIsRun(l, closed, k - 1, signalFd, listenerFd);
      SweepTurn(l, closed, k - 1);
      if l.dropped[k - 1] in closed {
        var now, last := Sweep(l, Visited(l, closed, k - 1)), Deletes(Position(l, closed, k - 1));
        hide Sweep, Visited, Position;
        OneAction(now, last, signalFd, listenerFd);
        RunsJoin(l, run, [last], signalFd, listenerFd);
        run := run + [last];
      }
    }
  }

  lemma AllVisited(l: Ledger, closed: set<SocketId>)
    requires forall s <- closed :: s in l.dropped
    ensures Visited(l, closed, |l.dropped|) == closed
  {
    assert l.dropped[..|l.dropped|] == l.dropped;
  }

  lemma NextMessageIsRun(l: Ledger, signalFd: int, listenerFd: int) returns (run: seq<Action>)
    requires LedgerOk(l, signalFd, listenerFd) && !l.control.state.SimulationFinished?
    ensures IsRun(l, run, signalFd, listenerFd) && After(l, run, signalFd, listenerFd) == NextMessage(l)
  {
    if l.queue == [] {
      run := [];
    } else {
      ReceiveKeepsOk(l, signalFd, listenerFd);
      hide LedgerOk, Receive;
      run := [Receives];
      OneAction(l, Receives, signalFd, listenerFd);
    }
  }

  /** What the ready descriptors make of the server. */
  lemma ReadyTurnIsRun(l: Ledger, accepting: bool, s: SocketId, fd: int, order: seq<SocketId>, closed: set<SocketId>,
                       inputs: map<SocketId, seq<byte>>, decode: Decoder, served: Ledger, signalFd: int, listenerFd: int)
    returns (run: seq<Action>)
    requires LedgerOk(l, signalFd, listenerFd) && !l.control.state.SimulationFinished?
    requires s !in l.place && fd !in {signalFd, listenerFd} && forall t <- l.fds :: l.fds[t] != fd
    requires inputs.Keys <= l.barely.Keys
    requires IsReadyTurn(l, accepting, s, fd, order, closed, inputs, decode, Ok(served))
    ensures IsRun(l, run, signalFd, listenerFd) && After(l, run, signalFd, listenerFd) == served
    ensures !served.control.state.SimulationFinished?
  {
    if accepting {
      OneAction(l, Accepts(s, fd), signalFd, listenerFd);
      run := [Accepts(s, fd)];
    } else {
      var settled := SettleAll(l, order, inputs, decode).value.0;
      hide LedgerOk, SettleAll, Sweep, Visited;
      run := SettleAllIsRun(l, order, inputs, decode, signalFd, listenerFd);
      SettleAllKeepsOk(l, order, inputs, decode, signalFd, listenerFd);
      DroppedAreOpen(settled, signalFd, listenerFd);
      AllVisited(settled, closed);
      var sweep := SweepIsRun(settled, closed, |settled.dropped|, signalFd, listenerFd);
      RunsJoin(l, run, sweep, signalFd, listenerFd);
      run := run + sweep;
    }
  }

  lemma DroppedAreOpen(l: Ledger, signalFd: int, listenerFd: int)
    requires LedgerOk(l, signalFd, listenerFd)
    ensures Distinct(l.dropped) && forall s <- l.dropped :: s in l.fds && s in l.place
  {
    assert forall s <- l.dropped :: At(l, s, Dropped);
  }

  /** A whole turn: the ready descriptors, if there are any, and then one message. */
  lemma TurnIsRun(l: Ledger, ready: bool, accepting: bool, s: SocketId, fd: int, order: seq<SocketId>, closed: set<SocketId>,
                  inputs: map<SocketId, seq<byte>>, decode: Decoder, served: Ledger, signalFd: int, listenerFd: int)
    returns (run: seq<Action>)
    requires LedgerOk(l, signalFd, listenerFd) && !l.control.state.SimulationFinished?
    requires s !in l.place && fd !in {signalFd, listenerFd} && forall t <- l.fds :: l.fds[t] != fd
    requires inputs.Keys <= l.barely.Keys
    requires if ready then IsReadyTurn(l, accepting, s, fd, order, closed, inputs, decode, Ok(served)) else served == l
    ensures IsRun(l, run, signalFd, listenerFd) && After(l, run, signalFd, listenerFd) == NextMessage(served)
  {
    hide LedgerOk, IsReadyTurn, NextMessage, IsRun, After;
    if ready {
      run := ReadyTurnIsRun(l, accepting, s, fd, order, closed, inputs, decode, served, signalFd, listenerFd);
    } else {
      run := [];
      NoAction(l, signalFd, listenerFd);
    }
    RunKeepsOk(l, run, signalFd, listenerFd);
    var last := NextMessageIsRun(served, signalFd, listenerFd);
    RunsJoin(l, run, last, signalFd, listenerFd);
    run := run + last;
  }

  /** A server whose state is that of a run. */
  ghost predicate Follows(server: Server, run: seq<Action>)
    reads server, server.selector
  {
    && server.Valid() && server.signalFd != server.listenerFd
    && IsRun(InitialLedger(server.signalFd, server.listenerFd), run, server.signalFd, server.listenerFd)
    && After(InitialLedger(server.signalFd, server.listenerFd), run, server.signalFd, server.listenerFd) == server.ledger
  }

  /** One turn of the loop prolongs the run: the theorems about runs are about the loop. */
  method TracedTurn(server: Server, ghost run: seq<Action>, ready: set<int>, fd: int, stream: seq<byte>, decode: Decoder)
    returns (r: Result<Option<int>, Crash>, ghost longer: seq<Action>)
    requires Follows(server, run) && !server.state.SimulationFinished? && !server.state.Killed?
    requires fd != server.signalFd && fd != server.listenerFd && forall t <- server.fds :: server.fds[t] != fd
    modifies server, server.selector
    ensures r == Ok(None) ==> Follows(server, longer) && run <= longer
  {
    ghost var l, s, inputs, accepting := server.ledger, server.nextSocket, server.Inputs(), server.listenerFd in ready;
    ghost var registered := server.selector.registered;
    ghost var order, closed, served;
    r, order, closed, served := server.Iterate(ready, fd, stream, decode);
    longer := run;
    if r == Ok(None) {
      hide LedgerOk, IsReadyTurn, NextMessage, IsRun, After;
      ghost var turn := TurnIsRun(l, ready * registered != {}, accepting, s, fd, order, closed, inputs, decode, served.value,
                                  server.signalFd, server.listenerFd);
      RunsJoin(InitialLedger(server.signalFd, server.listenerFd), run, turn, server.signalFd, server.listenerFd);
      longer := run + turn;
    }
  }
}
