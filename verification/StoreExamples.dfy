/** Concrete runs of the remote objects: a reception that works, two that fail the client's assertion on
    the received data, and what goes wrong when a process forks while it holds a handle. */
module StoreExamples {
  import opened Wrappers
  import opened Wire
  import opened ObjectStore
  import opened StoreRuns
  import RefcountStores
  import ClientComms

  lemma {:induction false} OneMoreAction(w: State, run: seq<Action>, a: Action)
    requires IsRun(w, run) && Possible(After(w, run), a)
    ensures IsRun(w, run + [a]) && After(w, run + [a]) == Perform(After(w, run), a)
    decreases |run|
  {
    if run == [] {
      assert run + [a] == [a] && [a][1..] == [];
    } else {
      assert (run + [a])[1..] == run[1..] + [a];
      OneMoreAction(Perform(w, run[0]), run[1..], a);
    }
  }

  /** The run so far has reached `w`. */
  ghost predicate Reaches(run: seq<Action>, w: State) {
    IsRun(EMPTY_STATE, run) && After(EMPTY_STATE, run) == w
  }

  lemma Then(run: seq<Action>, w: State, a: Action, w': State) returns (next: seq<Action>)
    requires Reaches(run, w) && Possible(w, a) && Perform(w, a) == w'
    ensures next == run + [a] && Reaches(next, w')
  {
    OneMoreAction(EMPTY_STATE, run, a);
    next := run + [a];
  }

  // ----- a reception

  /** The communication that all these runs are about, and its handle. */
  const COMM: Address := 1
  const HANDLE := Ref(CommKind, COMM)

  const WAITING := Store(map[COMM := Entry(Some(0), 1)], map[], map[], map[], map[0 := None], {COMM}, multiset{COMM}, {},
                         map[], map[], [])

  function Transferred(data: seq<byte>): Store {
    Store(map[COMM := Entry(Some(0), 1)], map[], map[], map[0 := data], map[0 := Some(0)], {COMM}, multiset{COMM}, {COMM},
          map[0 := data], map[0 := InBuffer(0)], [])
  }

  function Alone(s: Store): State {
    State(s, map[0 := multiset{HANDLE}], multiset{}, false)
  }

  lemma OpenReception() returns (run: seq<Action>)
    ensures run == [Starts(0), GetsAsync(0, COMM, 0)] && Reaches(run, Alone(WAITING))
  {
    var w := EMPTY_STATE.(handles := map[0 := multiset{}]);
    run := Then([], EMPTY_STATE, Starts(0), w);
    run := GetHandle(run, w);
  }

  lemma GetHandle(run: seq<Action>, w: State) returns (next: seq<Action>)
    requires Reaches(run, w) && w == EMPTY_STATE.(handles := map[0 := multiset{}])
    ensures next == run + [GetsAsync(0, COMM, 0)] && Reaches(next, Alone(WAITING))
  {
    assert OnStore(w.store, GetsAsync(0, COMM, 0)) == WAITING;
    assert multiset{} + multiset{HANDLE} == multiset{HANDLE};
    assert HandlesAfter(w, GetsAsync(0, COMM, 0)) == map[0 := multiset{HANDLE}];
    hide OnStore, HandlesAfter;
    next := Then(run, w, GetsAsync(0, COMM, 0), Alone(WAITING));
  }

  /** A sender puts `data`, and the transfer ends. */
  lemma Receive(data: seq<byte>) returns (run: seq<Action>)
    ensures run == [Starts(0), GetsAsync(0, COMM, 0), Puts(0, data), Transfers(0, 0)]
    ensures Reaches(run, Alone(Transferred(data)))
  {
    run := OpenReception();
    var w := Alone(Send(WAITING, 0, data));
    run := Then(run, Alone(WAITING), Puts(0, data), w);
    var s := Fill(w.store, 0, 0);
    assert s.terminated == {COMM};
    assert s == Transferred(data);
    run := Then(run, w, Transfers(0, 0), Alone(s));
  }

  /** After a test or a wait. */
  function Taken(data: seq<byte>): Store {
    Store(map[COMM := Entry(None, 1)], map[], map[], map[], map[], {COMM}, multiset{COMM}, {COMM},
          map[0 := data], map[0 := Freed], [(0, data)])
  }

  lemma TakesData(data: seq<byte>)
    ensures TakeIfOver(Transferred(data), COMM) == Taken(data)
  {
    assert HasData(Transferred(data), COMM);
    assert [] + [(0, data)] == [(0, data)];
    var s := TakeData(Transferred(data), COMM);
    assert s.heap == map[] && s.buffers == map[] && s.comms == map[COMM := Entry(None, 1)];
  }

  function Blocked(s: Store): State {
    Alone(s).(waiting := multiset{(0, COMM)})
  }

  lemma OneToken()
    ensures Tokens(0, [COMM]) == multiset{(0, COMM)}
  {
    assert [COMM][1..] == [];
  }

  lemma BeginWait(run: seq<Action>, s: Store) returns (next: seq<Action>)
    requires Reaches(run, Alone(s)) && COMM in s.comms
    ensures next == run + [StartsWait(0, [COMM])] && Reaches(next, Blocked(s))
  {
    OneToken();
    next := Then(run, Alone(s), StartsWait(0, [COMM]), Blocked(s));
  }

  /** A wait delivers what was put, even nothing. */
  lemma DeliveryHappens(data: seq<byte>) returns (run: seq<Action>, w: State)
    ensures run == [Starts(0), GetsAsync(0, COMM, 0), Puts(0, data), Transfers(0, 0),
                    StartsWait(0, [COMM]), EndsWait(0, [COMM], 0)]
    ensures Reaches(run, w) && w.store.acked == [(0, data)] && w.store.heap == map[] && w.waiting == multiset{}
  {
    run := Receive(data);
    run := BeginWait(run, Transferred(data));
    TakesData(data);
    OneToken();
    w := Alone(Taken(data));
    hide TakeIfOver;
    run := Then(run, Blocked(Transferred(data)), EndsWait(0, [COMM], 0), w);
  }

  /** A wait after a successful `test`: the communication is over and known, the wait can only end with it,
      and the client's assertion on the data fails. The data itself was handed over by the test. */
  lemma WaitAfterTestFails(data: seq<byte>) returns (run: seq<Action>, w: State)
    ensures run == [Starts(0), GetsAsync(0, COMM, 0), Puts(0, data), Transfers(0, 0),
                    Tests(0, COMM), StartsWait(0, [COMM])]
    ensures Reaches(run, w) && Possible(w, EndsWait(0, [COMM], 0)) && COMM in w.store.comms
    ensures w.store.acked == [(0, data)]
    ensures ClientComms.WaitResult(RefcountStores.Waited(RefcountStores.Bytes(Data(w.store, COMM))), true)
            == Err(ClientComms.NoData)
  {
    run := Receive(data);
    TakesData(data);
    hide TakeIfOver, Reaches;
    run := Then(run, Alone(Transferred(data)), Tests(0, COMM), Alone(Taken(data)));
    run := BeginWait(run, Taken(data));
    w := Blocked(Taken(data));
    OneToken();
    assert Data(Taken(data), COMM) == None;
  }

  /** A wait for a payload without bytes. */
  lemma EmptyPayloadFails() returns (run: seq<Action>, w: State)
    ensures run == [Starts(0), GetsAsync(0, COMM, 0), Puts(0, []), Transfers(0, 0), StartsWait(0, [COMM])]
    ensures Reaches(run, w) && Possible(w, EndsWait(0, [COMM], 0)) && COMM in w.store.comms
    ensures Data(w.store, COMM) == Some([])
    ensures ClientComms.WaitResult(RefcountStores.Waited(RefcountStores.Bytes(Data(w.store, COMM))), true)
            == Err(ClientComms.NoData)
  {
    run := Receive([]);
    run := BeginWait(run, Transferred([]));
    w := Blocked(Transferred([]));
    OneToken();
    assert HasData(Transferred([]), COMM);
  }

  // ----- forks

  function Copied(s: Store): State {
    State(s, map[0 := multiset{HANDLE}, 1 := multiset{HANDLE}], multiset{}, false)
  }

  lemma ForkWithHandle() returns (run: seq<Action>)
    ensures run == [Starts(0), GetsAsync(0, COMM, 0), Forks(0, 1)] && Reaches(run, Copied(WAITING))
  {
    run := OpenReception();
    run := Then(run, Alone(WAITING), Forks(0, 1), Copied(WAITING));
  }

  const RELEASED := WAITING.(comms := map[], refs := multiset{})

  lemma ReleasedIsEmpty()
    ensures Drop(WAITING, HANDLE) == RELEASED
  {
    assert WAITING.comms - {COMM} == map[];
    assert WAITING.terminated - {COMM} == {};
    assert WAITING.refs - multiset{COMM} == multiset{};
  }

  function OnlyParent(waiting: multiset<(Process, Address)>): State {
    State(RELEASED, map[0 := multiset{HANDLE}, 1 := multiset{}], waiting, false)
  }

  lemma LastHandleLeaves(waiting: multiset<(Process, Address)>)
    requires (1, COMM) !in waiting
    ensures var w := Copied(WAITING).(waiting := waiting);
            ClientPossible(w, Destroys(1, HANDLE)) && HandlesAfter(w, Destroys(1, HANDLE)) == OnlyParent(waiting).handles
  {
    assert multiset{HANDLE} - multiset{HANDLE} == multiset{};
  }

  lemma ChildDestroys(run: seq<Action>, waiting: multiset<(Process, Address)>) returns (next: seq<Action>)
    requires Reaches(run, Copied(WAITING).(waiting := waiting)) && (1, COMM) !in waiting
    ensures next == run + [Destroys(1, HANDLE)] && Reaches(next, OnlyParent(waiting))
  {
    ReleasedIsEmpty();
    LastHandleLeaves(waiting);
    var w := Copied(WAITING).(waiting := waiting);
    hide Drop, HandlesAfter;
    next := Then(run, w, Destroys(1, HANDLE), OnlyParent(waiting));
  }

  /** The child of a fork destroys its copy of a handle: the parent's has no entry any more. */
  lemma DanglingHandle() returns (run: seq<Action>, w: State)
    ensures run == [Starts(0), GetsAsync(0, COMM, 0), Forks(0, 1), Destroys(1, HANDLE)]
    ensures Reaches(run, w) && w == OnlyParent(multiset{})
    ensures Holds(w, 0, HANDLE) && !InStore(w.store, HANDLE)
  {
    run := ForkWithHandle();
    run := ChildDestroys(run, multiset{});
    w := OnlyParent(multiset{});
  }

  function ThreeProcesses(s: Store, third: multiset<Ref>): State {
    State(s, map[0 := multiset{HANDLE}, 1 := multiset{}, 2 := third], multiset{}, false)
  }

  const FREED := RELEASED.(live := {})

  /** Then SimGrid frees the communication, another process gets one at the same address, and the parent's
      destructor erases that one from the store. */
  lemma ReusedAddress(data: seq<byte>) returns (run: seq<Action>, w: State)
    ensures Reaches(run, w) && Holds(w, 2, HANDLE) && !InStore(w.store, HANDLE)
    ensures !Holds(w, 0, HANDLE) && !Holds(w, 1, HANDLE)
  {
    run := FreeAndStart();
    FirstHandle();
    var s := AddComm(Send(FREED, 0, data), COMM, None);
    assert s.comms == map[COMM := Entry(None, 1)];
    hide HandlesAfter;
    run := Then(run, ThreeProcesses(FREED, multiset{}), PutsAsync(2, 0, data, COMM), ThreeProcesses(s, multiset{HANDLE}));
    run, w := DestroyLast(run, ThreeProcesses(s, multiset{HANDLE}));
  }

  lemma FreeAndStart() returns (run: seq<Action>)
    ensures Reaches(run, ThreeProcesses(FREED, multiset{}))
  {
    var w: State;
    run, w := DanglingHandle();
    hide Reaches;
    run := Free(run);
    w := w.(store := FREED);
    run := Then(run, w, Starts(2), ThreeProcesses(FREED, multiset{}));
  }

  lemma Free(run: seq<Action>) returns (next: seq<Action>)
    requires Reaches(run, OnlyParent(multiset{}))
    ensures Reaches(next, OnlyParent(multiset{}).(store := FREED))
  {
    hide Reaches;
    assert RELEASED.live - {COMM} == {};
    next := Then(run, OnlyParent(multiset{}), Frees(COMM), OnlyParent(multiset{}).(store := FREED));
  }

  lemma FirstHandle()
    ensures forall s, data ::
              HandlesAfter(ThreeProcesses(s, multiset{}), PutsAsync(2, 0, data, COMM))
              == ThreeProcesses(s, multiset{HANDLE}).handles
  {
    assert multiset{} + multiset{HANDLE} == multiset{HANDLE};
  }

  lemma DestroyLast(run: seq<Action>, w: State) returns (next: seq<Action>, last: State)
    requires Reaches(run, w) && w.store.comms == map[COMM := Entry(None, 1)] && w.waiting == multiset{}
    requires w.handles == map[0 := multiset{HANDLE}, 1 := multiset{}, 2 := multiset{HANDLE}]
    ensures Reaches(next, last) && Holds(last, 2, HANDLE) && !InStore(last.store, HANDLE)
    ensures !Holds(last, 0, HANDLE) && !Holds(last, 1, HANDLE)
  {
    assert multiset{HANDLE} - multiset{HANDLE} == multiset{};
    last := Perform(w, Destroys(0, HANDLE));
    next := Then(run, w, Destroys(0, HANDLE), last);
    assert last.store.comms == w.store.comms - {COMM};
  }

  /** The parent waits while the child destroys its copy; the transfer ends, and the parent's actor comes
      back to an entry that is not there. */
  lemma ErasedWaitedEntry(data: seq<byte>) returns (run: seq<Action>, w: State)
    ensures Reaches(run, w) && w.broken
  {
    run := ForkWithHandle();
    OneToken();
    var w1 := Copied(WAITING).(waiting := multiset{(0, COMM)});
    run := Then(run, Copied(WAITING), StartsWait(0, [COMM]), w1);
    run := ChildDestroys(run, w1.waiting);
    run, w := TransferAndWake(run, data);
  }

  lemma TransferAndWake(run: seq<Action>, data: seq<byte>) returns (next: seq<Action>, last: State)
    requires Reaches(run, OnlyParent(multiset{(0, COMM)}))
    ensures Reaches(next, last) && last.broken
  {
    var w := OnlyParent(multiset{(0, COMM)});
    var w1 := w.(store := Send(RELEASED, 0, data));
    next := Then(run, w, Puts(0, data), w1);
    var w2 := w1.(store := Fill(w1.store, 0, 0));
    next := Then(next, w1, Transfers(0, 0), w2);
    next, last := Wake(next, w2);
  }

  lemma Wake(run: seq<Action>, w: State) returns (next: seq<Action>, last: State)
    requires Reaches(run, w) && COMM !in w.store.comms && w.waiting == multiset{(0, COMM)}
    ensures Reaches(next, last) && last.broken
  {
    OneToken();
    last := Perform(w, EndsWait(0, [COMM], 0));
    next := Then(run, w, EndsWait(0, [COMM], 0), last);
  }
}
