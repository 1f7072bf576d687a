/** Runs of the remote objects: every interleaving of the decisions of the actors, cut where they block,
    with what SimGrid does in between, and with what the client processes do to their handles. */
module StoreRuns {
  import opened Wrappers
  import opened Wire
  import opened ObjectStore

  type Process = nat

  datatype Kind = CommKind | MutexKind | ConditionKind

  /** What the destructor of a handle tells the server. */
  datatype Ref = Ref(kind: Kind, address: Address)

  /** The server with SimGrid, and the clients: the handles that each process holds, and the
      communications that its threads are blocked on. `broken` says that an actor came back from a wait
      to an entry that was erased: the assertion on it fails, or its memory is read after it was freed. */
  datatype State = State(
    store: Store,
    handles: map<Process, multiset<Ref>>,
    waiting: multiset<(Process, Address)>,
    broken: bool)

  const EMPTY_STATE := State(EMPTY_STORE, map[], multiset{}, false)

  datatype Action =
    // client processes
    | Starts(process: Process)
    | Forks(parent: Process, child: Process)
    | Destroys(process: Process, ref: Ref)
    // decisions
    | Puts(payload: Payload, data: seq<byte>)
    | PutsAsync(process: Process, payload: Payload, data: seq<byte>, address: Address)
    | Gets(payload: Payload)
    | GetsAsync(process: Process, address: Address, buffer: Buffer)
    | Tests(process: Process, address: Address)
    | StartsWait(process: Process, addresses: seq<Address>)
    | EndsWait(process: Process, addresses: seq<Address>, index: int)
    | CreatesMutex(process: Process, address: Address)
    | CreatesCondition(process: Process, address: Address)
    // SimGrid
    | Transfers(payload: Payload, buffer: Buffer)
    | PutEnds(address: Address)
    | Allocates(address: Address)
    | Frees(address: Address)

  predicate InStore(s: Store, r: Ref) {
    match r.kind
    case CommKind => r.address in s.comms
    case MutexKind => r.address in s.mutexes
    case ConditionKind => r.address in s.conditions
  }

  predicate Holds(w: State, q: Process, r: Ref) {
    q in w.handles && r in w.handles[q]
  }

  function Tokens(q: Process, cs: seq<Address>): multiset<(Process, Address)> {
    if cs == [] then multiset{} else multiset{(q, cs[0])} + Tokens(q, cs[1..])
  }

  // ----- the server side of an action

  /** New objects, buffers and payloads are at addresses not in use. A transfer takes a payload that no
      other took, into a buffer that was not filled. A wait ends with a communication that is over, or
      with a timeout (-1). SimGrid frees nothing that the store references. */
  predicate StorePossible(s: Store, a: Action) {
    match a
    case Puts(p, _) => p !in s.place
    case PutsAsync(_, p, _, c) => p !in s.place && c !in s.live
    case Gets(p) => p in s.place && s.place[p].Flying? && p in s.heap
    case GetsAsync(_, c, b) => c !in s.live && b !in s.buffers
    case Transfers(p, b) => p in s.place && s.place[p].Flying? && b in s.buffers && s.buffers[b].None?
    case PutEnds(c) => c in s.comms && s.comms[c].buffer.None?
    case EndsWait(_, cs, i) => -1 <= i < |cs| && (i >= 0 && cs[i] in s.comms ==> Terminated(s, cs[i]))
    case CreatesMutex(_, c) => c !in s.live
    case CreatesCondition(_, c) => c !in s.live
    case Allocates(c) => c !in s.live
    case Frees(c) => c !in s.refs
    case _ => true
  }

  function Drop(s: Store, r: Ref): Store {
    match r.kind
    case CommKind => if r.address in s.comms then Release(s, r.address) else s
    case MutexKind => if r.address in s.mutexes then ReleaseMutex(s, r.address) else s
    case ConditionKind => if r.address in s.conditions then ReleaseCondition(s, r.address) else s
  }

  function TakeIfOver(s: Store, c: Address): Store {
    if c in s.comms && Terminated(s, c) then TakeData(s, c) else s
  }

  function OnStore(s: Store, a: Action): Store
    requires StorePossible(s, a)
  {
    match a
    case Puts(p, data) => Send(s, p, data)
    case PutsAsync(_, p, data, c) => AddComm(Send(s, p, data), c, None)
    case Gets(p) => HandOver(s, p)
    case GetsAsync(_, c, b) => AddComm(s, c, Some(b))
    case Transfers(p, b) => Fill(s, p, b)
    case PutEnds(c) => s.(terminated := s.terminated + {c})
    case Tests(_, c) => TakeIfOver(s, c)
    case EndsWait(_, cs, i) => if i >= 0 then TakeIfOver(s, cs[i]) else s
    case Destroys(_, r) => Drop(s, r)
    case CreatesMutex(_, c) => AddMutex(s, c)
    case CreatesCondition(_, c) => AddCondition(s, c)
    case Allocates(c) => s.(live := s.live + {c})
    case Frees(c) => s.(live := s.live - {c})
    case _ => s
  }

  // ----- the client side

  /** A process uses the handles it holds. One of a thread that is blocked on it stays, and SimGrid keeps
      the communication meanwhile. */
  predicate ClientPossible(w: State, a: Action) {
    match a
    case Starts(q) => q !in w.handles
    case Forks(p, c) => p in w.handles && c !in w.handles
    case Destroys(q, r) =>
      q in w.handles && w.handles[q][r] > if r.kind.CommKind? && (q, r.address) in w.waiting then 1 else 0
    case PutsAsync(q, _, _, _) => q in w.handles
    case GetsAsync(q, _, _) => q in w.handles
    case CreatesMutex(q, _) => q in w.handles
    case CreatesCondition(q, _) => q in w.handles
    case Tests(q, c) => Holds(w, q, Ref(CommKind, c))
    case StartsWait(q, cs) => forall c <- cs :: Holds(w, q, Ref(CommKind, c))
    case EndsWait(q, cs, _) => Tokens(q, cs) <= w.waiting
    case Frees(c) => forall t <- w.waiting :: t.1 != c
    case _ => true
  }

  function Creation(a: Action): Option<(Process, Ref)> {
    match a
    case PutsAsync(q, _, _, c) => Some((q, Ref(CommKind, c)))
    case GetsAsync(q, c, _) => Some((q, Ref(CommKind, c)))
    case CreatesMutex(q, c) => Some((q, Ref(MutexKind, c)))
    case CreatesCondition(q, c) => Some((q, Ref(ConditionKind, c)))
    case _ => None
  }

  /** `fork` copies every handle of the process. */
  function HandlesAfter(w: State, a: Action): map<Process, multiset<Ref>>
    requires ClientPossible(w, a)
  {
    if Creation(a).Some? then
      var (q, r) := Creation(a).value; w.handles[q := w.handles[q] + multiset{r}]
    else match a
      case Starts(q) => w.handles[q := multiset{}]
      case Forks(p, c) => w.handles[c := w.handles[p]]
      case Destroys(q, r) => w.handles[q := w.handles[q] - multiset{r}]
      case _ => w.handles
  }

  /** The request of a wait is refused, and nobody blocks, when the server does not know a communication. */
  function WaitingAfter(w: State, a: Action): multiset<(Process, Address)> {
    match a
    case StartsWait(q, cs) => if forall c <- cs :: c in w.store.comms then w.waiting + Tokens(q, cs) else w.waiting
    case EndsWait(q, cs, _) => w.waiting - Tokens(q, cs)
    case _ => w.waiting
  }

  predicate Breaks(w: State, a: Action) {
    a.EndsWait? && 0 <= a.index < |a.addresses| && a.addresses[a.index] !in w.store.comms
  }

  predicate Possible(w: State, a: Action) {
    StorePossible(w.store, a) && ClientPossible(w, a)
  }

  function Perform(w: State, a: Action): State
    requires Possible(w, a)
  {
    State(OnStore(w.store, a), HandlesAfter(w, a), WaitingAfter(w, a), w.broken || Breaks(w, a))
  }

  ghost predicate IsRun(w: State, run: seq<Action>)
    decreases |run|
  {
    run == [] || (Possible(w, run[0]) && IsRun(Perform(w, run[0]), run[1..]))
  }

  ghost function After(w: State, run: seq<Action>): State
    requires IsRun(w, run)
    decreases |run|
  {
    if run == [] then w else After(Perform(w, run[0]), run[1..])
  }

  // ----- the store keeps its invariant, whatever the clients do

  predicate IsTransfer(a: Action) {
    a.Puts? || a.PutsAsync? || a.Gets? || a.GetsAsync? || a.Transfers? || a.PutEnds?
  }

  lemma PutEndEntries(s: Store, c: Address)
    requires EntriesOk(s) && c in s.comms && s.comms[c].buffer.None?
    ensures EntriesOk(s.(terminated := s.terminated + {c}))
  {
  }

  lemma PutEndRest(s: Store, c: Address)
    requires PayloadsOk(s) && AcksOk(s) && RefsOk(s)
    ensures var t := s.(terminated := s.terminated + {c}); PayloadsOk(t) && AcksOk(t) && RefsOk(t)
  {
  }

  lemma PutEndKeepsOk(s: Store, c: Address)
    requires StoreOk(s) && c in s.comms && s.comms[c].buffer.None?
    ensures StoreOk(s.(terminated := s.terminated + {c}))
  {
    hide PayloadsOk, AcksOk, EntriesOk, RefsOk;
    PutEndEntries(s, c);
    PutEndRest(s, c);
  }

  lemma LiveKeepsOk(s: Store, live: set<Address>)
    requires StoreOk(s) && forall a <- s.refs :: a in live
    ensures StoreOk(s.(live := live))
  {
    SameMemory(s, s.(live := live));
    hide PayloadsOk, AcksOk, EntriesOk;
  }

  lemma PutsAsyncKeepsOk(s: Store, p: Payload, data: seq<byte>, c: Address)
    requires StoreOk(s) && p !in s.place && c !in s.live
    ensures StoreOk(AddComm(Send(s, p, data), c, None))
  {
    hide StoreOk, AddComm;
    SendKeepsOk(s, p, data);
    AddCommKeepsOk(Send(s, p, data), c, None);
  }

  lemma TransferKeepsOk(s: Store, a: Action)
    requires StoreOk(s) && StorePossible(s, a) && IsTransfer(a)
    ensures StoreOk(OnStore(s, a))
  {
    hide StoreOk;
    match a {
      case Puts(p, data) => SendKeepsOk(s, p, data);
      case PutsAsync(_, p, data, c) => PutsAsyncKeepsOk(s, p, data, c);
      case Gets(p) => HandOverKeepsOk(s, p);
      case GetsAsync(_, c, b) => AddCommKeepsOk(s, c, Some(b));
      case Transfers(p, b) => FillKeepsOk(s, p, b);
      case PutEnds(c) => PutEndKeepsOk(s, c);
      case _ =>
    }
  }

  lemma TakeIfOverKeepsOk(s: Store, c: Address)
    requires StoreOk(s)
    ensures StoreOk(TakeIfOver(s, c)) && TakeIfOver(s, c).comms.Keys == s.comms.Keys
  {
    if c in s.comms && Terminated(s, c) {
      hide StoreOk;
      TakeDataKeepsOk(s, c);
    }
  }

  lemma DropKeepsOk(s: Store, r: Ref)
    requires StoreOk(s)
    ensures StoreOk(Drop(s, r))
  {
    hide StoreOk;
    match r.kind {
      case CommKind => if r.address in s.comms { ReleaseKeepsOk(s, r.address); }
      case MutexKind => if r.address in s.mutexes { ReleaseMutexKeepsOk(s, r.address); }
      case ConditionKind => if r.address in s.conditions { ReleaseConditionKeepsOk(s, r.address); }
    }
  }

  lemma RefsAreLive(s: Store)
    requires StoreOk(s)
    ensures forall c <- s.refs :: c in s.live
  {
  }

  lemma OtherKeepsOk(s: Store, a: Action)
    requires StoreOk(s) && StorePossible(s, a) && !IsTransfer(a)
    ensures StoreOk(OnStore(s, a))
  {
    RefsAreLive(s);
    hide StoreOk, Drop, TakeIfOver;
    match a {
      case Tests(_, c) => TakeIfOverKeepsOk(s, c);
      case EndsWait(_, cs, i) => if i >= 0 { TakeIfOverKeepsOk(s, cs[i]); }
      case Destroys(_, r) => DropKeepsOk(s, r);
      case CreatesMutex(_, c) => AddMutexKeepsOk(s, c);
      case CreatesCondition(_, c) => AddConditionKeepsOk(s, c);
      case Allocates(c) => LiveKeepsOk(s, s.live + {c});
      case Frees(c) => LiveKeepsOk(s, s.live - {c});
      case _ =>
    }
  }

  lemma ActionKeepsOk(s: Store, a: Action)
    requires StoreOk(s) && StorePossible(s, a)
    ensures StoreOk(OnStore(s, a))
  {
    hide StoreOk, StorePossible, OnStore;
    if IsTransfer(a) {
      TransferKeepsOk(s, a);
    } else {
      OtherKeepsOk(s, a);
    }
  }

  lemma {:induction false} RunKeepsOk(w: State, run: seq<Action>)
    requires StoreOk(w.store) && IsRun(w, run)
    ensures StoreOk(After(w, run).store)
    decreases |run|
  {
    if run != [] {
      ActionKeepsOk(w.store, run[0]);
      hide StoreOk, StorePossible, ClientPossible, OnStore;
      RunKeepsOk(Perform(w, run[0]), run[1..]);
    }
  }

  // ----- where payloads, buffers and their contents come from

  /** A sender has put `data` as the payload `p`. */
  ghost predicate WasPut(run: seq<Action>, p: Payload, data: seq<byte>) {
    Puts(p, data) in run || exists q, c :: PutsAsync(q, p, data, c) in run
  }

  /** A receiver has asked for a communication at `c` with the reception buffer `b`. */
  ghost predicate WasAsked(run: seq<Action>, c: Address, b: Buffer) {
    exists q :: GetsAsync(q, c, b) in run
  }

  /** What is in `s` and was not in `s0` comes from the actions of the run. */
  ghost predicate Origins(s0: Store, run: seq<Action>, s: Store) {
    && (forall p <- s.puts :: (p in s0.puts && s.puts[p] == s0.puts[p]) || WasPut(run, p, s.puts[p]))
    && (forall c <- s.comms :: s.comms[c].buffer.Some? ==>
          (c in s0.comms && s0.comms[c].buffer == s.comms[c].buffer) || WasAsked(run, c, s.comms[c].buffer.value))
    && (forall b <- s.buffers :: s.buffers[b].Some? ==>
          (b in s0.buffers && s0.buffers[b] == s.buffers[b]) || Transfers(s.buffers[b].value, b) in run)
  }

  lemma CreationOrigins(s: Store, a: Action)
    requires StorePossible(s, a) && (a.Puts? || a.PutsAsync? || a.GetsAsync?)
    ensures Origins(s, [a], OnStore(s, a))
  {
    assert a in [a];
    match a {
      case Puts(p, data) => assert WasPut([a], p, data);
      case PutsAsync(_, p, data, _) => assert WasPut([a], p, data);
      case GetsAsync(_, c, b) => assert WasAsked([a], c, b);
      case _ =>
    }
  }

  lemma TakeOrigins(s: Store, c: Address, run: seq<Action>)
    ensures Origins(s, run, TakeIfOver(s, c))
  {
    hide WasPut, WasAsked;
  }

  /** No buffer, no payload and no entry is new, and the entries keep their buffers. */
  ghost predicate AddsNothing(s: Store, t: Store) {
    && t.puts == s.puts && t.buffers == s.buffers
    && forall c <- t.comms :: c in s.comms && t.comms[c].buffer == s.comms[c].buffer
  }

  lemma ReleaseAddsNothing(s: Store, a: Address)
    requires a in s.comms
    ensures AddsNothing(s, Release(s, a))
  {
    if s.comms[a].remoteRefCount == 1 {
    }
  }

  lemma ReleaseMutexAddsNothing(s: Store, a: Address)
    requires a in s.mutexes
    ensures AddsNothing(s, ReleaseMutex(s, a))
  {
    if s.mutexes[a] == 1 {
    }
  }

  lemma ReleaseConditionAddsNothing(s: Store, a: Address)
    requires a in s.conditions
    ensures AddsNothing(s, ReleaseCondition(s, a))
  {
    if s.conditions[a] == 1 {
    }
  }

  lemma DropOrigins(s: Store, r: Ref, run: seq<Action>)
    ensures Origins(s, run, Drop(s, r))
  {
    hide WasPut, WasAsked, Release, ReleaseMutex, ReleaseCondition;
    match r.kind {
      case CommKind => if r.address in s.comms { ReleaseAddsNothing(s, r.address); }
      case MutexKind => if r.address in s.mutexes { ReleaseMutexAddsNothing(s, r.address); }
      case ConditionKind => if r.address in s.conditions { ReleaseConditionAddsNothing(s, r.address); }
    }
  }

  lemma ActionOrigins(s: Store, a: Action)
    requires StorePossible(s, a)
    ensures Origins(s, [a], OnStore(s, a))
  {
    match a {
      case Puts(_, _) => CreationOrigins(s, a);
      case PutsAsync(_, _, _, _) => CreationOrigins(s, a);
      case GetsAsync(_, _, _) => CreationOrigins(s, a);
      case Tests(_, c) => TakeOrigins(s, c, [a]); hide TakeIfOver;
      case EndsWait(_, cs, i) => if i >= 0 { TakeOrigins(s, cs[i], [a]); } hide TakeIfOver;
      case Destroys(_, r) => DropOrigins(s, r, [a]); hide Drop;
      case _ => hide WasPut, WasAsked;
    }
  }

  lemma LongerRun(run: seq<Action>, longer: seq<Action>)
    requires forall a <- run :: a in longer
    ensures forall p, data :: WasPut(run, p, data) ==> WasPut(longer, p, data)
    ensures forall c, b :: WasAsked(run, c, b) ==> WasAsked(longer, c, b)
  {
    forall p, data | WasPut(run, p, data)
      ensures WasPut(longer, p, data)
    {
      if Puts(p, data) !in run {
        var q, c :| PutsAsync(q, p, data, c) in run;
        assert PutsAsync(q, p, data, c) in longer;
      }
    }
    forall c, b | WasAsked(run, c, b)
      ensures WasAsked(longer, c, b)
    {
      var q :| GetsAsync(q, c, b) in run;
      assert GetsAsync(q, c, b) in longer;
    }
  }

  lemma OriginsJoin(s0: Store, first: seq<Action>, s1: Store, rest: seq<Action>, s2: Store)
    requires Origins(s0, first, s1) && Origins(s1, rest, s2)
    ensures Origins(s0, first + rest, s2)
  {
    LongerRun(first, first + rest);
    LongerRun(rest, first + rest);
    hide WasPut, WasAsked;
  }

  lemma {:induction false} RunOrigins(w: State, run: seq<Action>)
    requires IsRun(w, run)
    ensures Origins(w.store, run, After(w, run).store)
    decreases |run|
  {
    hide Origins, StorePossible, ClientPossible, OnStore;
    if run == [] {
      SameOrigins(w.store);
    } else {
      var w1 := Perform(w, run[0]);
      ActionOrigins(w.store, run[0]);
      RunOrigins(w1, run[1..]);
      assert run == [run[0]] + run[1..];
      OriginsJoin(w.store, [run[0]], w1.store, run[1..], After(w1, run[1..]).store);
    }
  }

  lemma SameOrigins(s: Store)
    ensures Origins(s, [], s)
  {
  }

  /** Payloads are not put twice: what was put stays known. */
  lemma PutStays(s: Store, a: Action, p: Payload)
    requires PayloadsOk(s) && StorePossible(s, a) && p in s.puts
    ensures p in OnStore(s, a).puts && OnStore(s, a).puts[p] == s.puts[p]
  {
    assert p in s.place;
    ActionOnPuts(s, a);
    hide PayloadsOk, OnStore;
  }

  /** Only puts add payloads, and what was put stays as it is. */
  lemma ActionOnPuts(s: Store, a: Action)
    requires StorePossible(s, a)
    ensures OnStore(s, a).puts == if a.Puts? || a.PutsAsync? then s.puts[a.payload := a.data] else s.puts
  {
    match a {
      case Tests(_, c) => TakeKeepsPuts(s, c); hide TakeIfOver;
      case EndsWait(_, cs, i) => if i >= 0 { TakeKeepsPuts(s, cs[i]); } hide TakeIfOver;
      case Destroys(_, r) => DropKeepsPuts(s, r); hide Drop;
      case _ => hide TakeIfOver, Drop;
    }
  }

  lemma TakeKeepsPuts(s: Store, c: Address)
    ensures TakeIfOver(s, c).puts == s.puts
  {
  }

  lemma DropKeepsPuts(s: Store, r: Ref)
    ensures Drop(s, r).puts == s.puts
  {
    hide Release, ReleaseMutex, ReleaseCondition;
    match r.kind {
      case CommKind => if r.address in s.comms { ReleaseAddsNothing(s, r.address); }
      case MutexKind => if r.address in s.mutexes { ReleaseMutexAddsNothing(s, r.address); }
      case ConditionKind => if r.address in s.conditions { ReleaseConditionAddsNothing(s, r.address); }
    }
  }

  lemma {:induction false} PutsStay(w: State, run: seq<Action>, p: Payload)
    requires StoreOk(w.store) && IsRun(w, run) && p in w.store.puts
    ensures p in After(w, run).store.puts && After(w, run).store.puts[p] == w.store.puts[p]
    decreases |run|
  {
    if run != [] {
      ActionKeepsOk(w.store, run[0]);
      PutStays(w.store, run[0], p);
      hide StoreOk, StorePossible, ClientPossible, OnStore;
      PutsStay(Perform(w, run[0]), run[1..], p);
    }
  }

  lemma PutIsRecorded(s: Store, a: Action)
    requires StorePossible(s, a) && (a.Puts? || a.PutsAsync?)
    ensures a.payload in OnStore(s, a).puts && OnStore(s, a).puts[a.payload] == a.data
  {
    ActionOnPuts(s, a);
    hide OnStore;
  }

  lemma {:induction false} RunRecords(w: State, run: seq<Action>, a: Action)
    requires StoreOk(w.store) && IsRun(w, run) && a in run && (a.Puts? || a.PutsAsync?)
    ensures a.payload in After(w, run).store.puts && After(w, run).store.puts[a.payload] == a.data
    decreases |run|
  {
    ActionKeepsOk(w.store, run[0]);
    if a == run[0] {
      PutIsRecorded(w.store, a);
      hide StoreOk, StorePossible, ClientPossible, OnStore;
      PutsStay(Perform(w, a), run[1..], a.payload);
    } else {
      hide StoreOk, StorePossible, ClientPossible, OnStore;
      RunRecords(Perform(w, run[0]), run[1..], a);
    }
  }

  lemma PutIsKnown(run: seq<Action>, p: Payload, data: seq<byte>)
    requires IsRun(EMPTY_STATE, run) && WasPut(run, p, data)
    ensures var s := After(EMPTY_STATE, run).store; p in s.puts && s.puts[p] == data
  {
    EmptyIsOk();
    if Puts(p, data) in run {
      RunRecords(EMPTY_STATE, run, Puts(p, data));
    } else {
      var q, c :| PutsAsync(q, p, data, c) in run;
      RunRecords(EMPTY_STATE, run, PutsAsync(q, p, data, c));
    }
  }

  /** In every interleaving, what is handed over as a payload are the bytes that some action has put as this
      payload; it is handed over at most once. Of what was put, memory holds these bytes until then, and
      nothing afterwards. */
  lemma PayloadsAreDeliveredOnceAndIntact(run: seq<Action>)
    requires IsRun(EMPTY_STATE, run)
    ensures var s := After(EMPTY_STATE, run).store;
            && (forall i | 0 <= i < |s.acked| :: WasPut(run, s.acked[i].0, s.acked[i].1))
            && (forall i, j | 0 <= i < j < |s.acked| :: s.acked[i].0 != s.acked[j].0)
            && (forall p, data | WasPut(run, p, data) ::
                  if WasAcked(s.acked, p) then p !in s.heap else p in s.heap && s.heap[p] == data)
  {
    var s := After(EMPTY_STATE, run).store;
    EmptyIsOk();
    RunKeepsOk(EMPTY_STATE, run);
    RunOrigins(EMPTY_STATE, run);
    FreedWhenAcked(s);
    forall p, data | WasPut(run, p, data)
      ensures p in s.puts && s.puts[p] == data
    {
      PutIsKnown(run, p, data);
    }
    HeapIsPut(s);
    hide IsRun, After, WasPut;
  }

  lemma HeapIsPut(s: Store)
    requires PayloadsOk(s)
    ensures forall p <- s.heap :: p in s.puts && s.heap[p] == s.puts[p]
  {
  }

  /** What a wait or a test on a communication hands over was put by the sender whose transfer ended in the
      buffer that this communication was asked with. */
  lemma DataComesFromItsSender(run: seq<Action>, c: Address)
    requires IsRun(EMPTY_STATE, run)
    requires var s := After(EMPTY_STATE, run).store; c in s.comms && Terminated(s, c) && Data(s, c).Some?
    ensures exists p, b :: WasAsked(run, c, b) && Transfers(p, b) in run
                           && WasPut(run, p, Data(After(EMPTY_STATE, run).store, c).value)
  {
    var s := After(EMPTY_STATE, run).store;
    EmptyIsOk();
    RunKeepsOk(EMPTY_STATE, run);
    RunOrigins(EMPTY_STATE, run);
    hide IsRun, After, WasPut, WasAsked;
    var b := s.comms[c].buffer.value;
    var p := Received(s, c).value;
    HeapIsPut(s);
    assert WasAsked(run, c, b) && Transfers(p, b) in run && WasPut(run, p, s.puts[p]);
  }

  lemma FreedWhenAcked(s: Store)
    requires StoreOk(s)
    ensures forall p <- s.puts :: p in s.heap <==> !WasAcked(s.acked, p)
  {
    hide EntriesOk, RefsOk;
    forall p <- s.puts
      ensures p in s.heap <==> !WasAcked(s.acked, p)
    {
      assert p in s.heap <==> !s.place[p].Freed?;
    }
  }

  // ----- what an action does to the entries

  lemma CommErased(s: Store, a: Address, t: Ref)
    requires StoreOk(s) && a in s.comms
    ensures InStore(Release(s, a), t) <==> InStore(s, t) && t != Ref(CommKind, a)
  {
    ReleaseKeepsOk(s, a);
    hide StoreOk;
  }

  lemma MutexErased(s: Store, a: Address, t: Ref)
    requires StoreOk(s) && a in s.mutexes
    ensures InStore(ReleaseMutex(s, a), t) <==> InStore(s, t) && t != Ref(MutexKind, a)
  {
    ReleaseMutexKeepsOk(s, a);
    hide StoreOk;
  }

  lemma ConditionErased(s: Store, a: Address, t: Ref)
    requires StoreOk(s) && a in s.conditions
    ensures InStore(ReleaseCondition(s, a), t) <==> InStore(s, t) && t != Ref(ConditionKind, a)
  {
    hide StoreOk;
    ReleaseConditionKeepsOk(s, a);
  }

  /** A destruction erases its entry, whoever else has a handle on it. */
  lemma DropErases(s: Store, r: Ref, t: Ref)
    requires StoreOk(s)
    ensures InStore(Drop(s, r), t) <==> InStore(s, t) && t != r
  {
    hide StoreOk, Release, ReleaseMutex, ReleaseCondition;
    match r.kind {
      case CommKind => if r.address in s.comms { CommErased(s, r.address, t); }
      case MutexKind => if r.address in s.mutexes { MutexErased(s, r.address, t); }
      case ConditionKind => if r.address in s.conditions { ConditionErased(s, r.address, t); }
    }
  }

  lemma TakingKeepsEntries(s: Store, c: Address, t: Ref)
    ensures InStore(TakeIfOver(s, c), t) <==> InStore(s, t)
  {
  }

  /** Entries come from creations, go with destructions, and nothing else. */
  lemma EntriesAfter(s: Store, a: Action, t: Ref)
    requires StoreOk(s) && StorePossible(s, a)
    ensures InStore(OnStore(s, a), t) <==>
            (InStore(s, t) && !(a.Destroys? && a.ref == t)) || (Creation(a).Some? && Creation(a).value.1 == t)
  {
    hide StoreOk, Drop, TakeIfOver;
    match a {
      case Destroys(_, r) => DropErases(s, r, t);
      case Tests(_, c) => TakingKeepsEntries(s, c, t);
      case EndsWait(_, cs, i) => if i >= 0 { TakingKeepsEntries(s, cs[i], t); }
      case PutsAsync(_, _, _, _) =>
      case GetsAsync(_, _, _) =>
      case CreatesMutex(_, _) =>
      case CreatesCondition(_, _) =>
      case _ =>
    }
  }

  /** A new object is at an address that no entry has. */
  lemma CreationIsNew(s: Store, a: Action, kind: Kind)
    requires StoreOk(s) && StorePossible(s, a) && Creation(a).Some?
    ensures !InStore(s, Ref(kind, Creation(a).value.1.address))
  {
    var c := Creation(a).value.1.address;
    assert c !in s.live;
    hide PayloadsOk, AcksOk, EntriesOk;
    assert c !in s.refs;
    assert s.refs[c] == if Stored(s, c) then 1 else 0;
  }

  // ----- agreement of clients and store

  ghost predicate Held(w: State, r: Ref) {
    exists q :: Holds(w, q, r)
  }

  /** Every handle has an entry, every entry has one handle, in one process. */
  ghost predicate Agrees(w: State) {
    && (forall q, r | Holds(w, q, r) :: InStore(w.store, r) && w.handles[q][r] == 1)
    && (forall q, p, r | Holds(w, q, r) && Holds(w, p, r) :: q == p)
    && (forall r | InStore(w.store, r) :: Held(w, r))
  }

  /** Who waits holds a handle meanwhile. */
  ghost predicate WaitersHold(w: State) {
    forall t <- w.waiting :: Holds(w, t.0, Ref(CommKind, t.1))
  }

  /** A fork of a process without handles. */
  predicate CopiesNothing(w: State, a: Action) {
    a.Forks? && a.parent in w.handles ==> w.handles[a.parent] == multiset{}
  }

  ghost predicate AgreesThroughout(w: State, run: seq<Action>)
    requires IsRun(w, run)
    decreases |run|
  {
    Agrees(w) && (run != [] ==> AgreesThroughout(Perform(w, run[0]), run[1..]))
  }

  ghost predicate NothingCopied(w: State, run: seq<Action>)
    requires IsRun(w, run)
    decreases |run|
  {
    run != [] ==> CopiesNothing(w, run[0]) && NothingCopied(Perform(w, run[0]), run[1..])
  }

  lemma CreationAgrees(w: State, a: Action)
    requires StoreOk(w.store) && Agrees(w) && Possible(w, a) && Creation(a).Some?
    ensures Agrees(Perform(w, a))
  {
    var w' := Perform(w, a);
    var (q, r) := Creation(a).value;
    CreationIsNew(w.store, a, r.kind);
    forall t
      ensures InStore(w'.store, t) <==> InStore(w.store, t) || t == r
    {
      EntriesAfter(w.store, a, t);
    }
    assert w'.handles == w.handles[q := w.handles[q] + multiset{r}];
    hide OnStore, StoreOk, StorePossible, ClientPossible, Perform;
    OneMoreHandle(w, w', q, r);
  }

  lemma OneMoreHandle(w: State, w': State, q: Process, r: Ref)
    requires Agrees(w) && q in w.handles && !InStore(w.store, r)
    requires w'.handles == w.handles[q := w.handles[q] + multiset{r}]
    requires forall t :: InStore(w'.store, t) <==> InStore(w.store, t) || t == r
    ensures Agrees(w')
  {
    hide InStore;
    assert forall p :: !Holds(w, p, r);
    forall p, t
      ensures Holds(w', p, t) <==> Holds(w, p, t) || (p == q && t == r)
    {
    }
    forall t | InStore(w'.store, t)
      ensures Held(w', t)
    {
      if t == r {
        assert Holds(w', q, r);
      } else {
        assert Held(w, t);
        var p :| Holds(w, p, t);
        assert Holds(w', p, t);
      }
    }
  }

  lemma OneHandleLess(w: State, w': State, q: Process, r: Ref)
    requires Agrees(w) && q in w.handles && r in w.handles[q]
    requires w'.handles == w.handles[q := w.handles[q] - multiset{r}]
    requires forall t :: InStore(w'.store, t) <==> InStore(w.store, t) && t != r
    ensures Agrees(w')
  {
    hide InStore;
    assert Holds(w, q, r);
    forall p, t
      ensures Holds(w', p, t) <==> Holds(w, p, t) && t != r
    {
    }
    forall t | InStore(w'.store, t)
      ensures Held(w', t)
    {
      assert Held(w, t);
      var p :| Holds(w, p, t);
      assert Holds(w', p, t);
    }
  }

  lemma SameHandles(w: State, w': State)
    requires Agrees(w)
    requires forall p, t :: Holds(w', p, t) <==> Holds(w, p, t)
    requires forall p <- w.handles :: p in w'.handles && w'.handles[p] == w.handles[p]
    requires forall t :: InStore(w'.store, t) <==> InStore(w.store, t)
    ensures Agrees(w')
  {
    hide InStore;
    forall t | InStore(w'.store, t)
      ensures Held(w', t)
    {
      assert Held(w, t);
      var p :| Holds(w, p, t);
      assert Holds(w', p, t);
    }
  }

  /** Agreement is kept by every action but a fork that copies handles. */
  lemma ActionAgrees(w: State, a: Action)
    requires StoreOk(w.store) && Agrees(w) && Possible(w, a) && CopiesNothing(w, a)
    ensures Agrees(Perform(w, a))
  {
    if Creation(a).Some? {
      CreationAgrees(w, a);
    } else {
      forall t
        ensures InStore(OnStore(w.store, a), t) <==> InStore(w.store, t) && !(a.Destroys? && a.ref == t)
      {
        EntriesAfter(w.store, a, t);
      }
      hide OnStore, StoreOk, StorePossible, Agrees, InStore;
      if a.Destroys? {
        OneHandleLess(w, Perform(w, a), a.process, a.ref);
      } else {
        SameHandles(w, Perform(w, a));
      }
    }
  }

  /** A fork that copies a handle ends the agreement at once. */
  lemma CopyDisagrees(w: State, a: Action)
    requires Possible(w, a) && !CopiesNothing(w, a)
    ensures !Agrees(Perform(w, a))
  {
    var w' := Perform(w, a);
    SomeRef(w.handles[a.parent]);
    var r :| r in w.handles[a.parent];
    assert Holds(w', a.parent, r) && Holds(w', a.child, r) && a.parent != a.child;
  }

  lemma SomeRef(refs: multiset<Ref>)
    ensures refs == multiset{} || exists r :: r in refs
  {
    if forall r :: r !in refs {
      assert refs == multiset{};
    }
  }

  /** Clients and store agree as long as the clients want, if and only if no process forks while it holds
      a handle. */
  lemma {:induction false} AgreementNeedsUncopiedHandles(w: State, run: seq<Action>)
    requires StoreOk(w.store) && Agrees(w) && IsRun(w, run)
    ensures AgreesThroughout(w, run) <==> NothingCopied(w, run)
    decreases |run|
  {
    if run != [] {
      var w' := Perform(w, run[0]);
      ActionKeepsOk(w.store, run[0]);
      if CopiesNothing(w, run[0]) {
        ActionAgrees(w, run[0]);
        hide Agrees, CopiesNothing, Perform, Possible;
        AgreementNeedsUncopiedHandles(w', run[1..]);
      } else {
        CopyDisagrees(w, run[0]);
        hide Agrees, CopiesNothing, Perform, Possible;
        assert !AgreesThroughout(w', run[1..]);
      }
    }
  }

  lemma HandlesAgreeWithTheStore(run: seq<Action>)
    requires IsRun(EMPTY_STATE, run)
    ensures AgreesThroughout(EMPTY_STATE, run) <==> NothingCopied(EMPTY_STATE, run)
  {
    EmptyIsOk();
    AgreementNeedsUncopiedHandles(EMPTY_STATE, run);
  }

  /** Then the references of the store are those of the handles. */
  lemma ReferencesAreHandles(w: State, a: Address)
    requires StoreOk(w.store) && Agrees(w)
    ensures w.store.refs[a] == if exists kind :: Held(w, Ref(kind, a)) then 1 else 0
  {
    assert w.store.refs[a] == if Stored(w.store, a) then 1 else 0;
    hide StoreOk;
    forall kind
      ensures Held(w, Ref(kind, a)) <==> InStore(w.store, Ref(kind, a))
    {
      if Held(w, Ref(kind, a)) {
        var q :| Holds(w, q, Ref(kind, a));
      }
    }
    assert Stored(w.store, a) <==>
           InStore(w.store, Ref(CommKind, a)) || InStore(w.store, Ref(MutexKind, a)) || InStore(w.store, Ref(ConditionKind, a));
  }

  // ----- waits

  lemma {:induction false} TokensOf(q: Process, cs: seq<Address>, t: (Process, Address))
    ensures t in Tokens(q, cs) <==> t.0 == q && t.1 in cs
  {
    if cs != [] {
      TokensOf(q, cs[1..], t);
      assert cs == [cs[0]] + cs[1..];
    }
  }

  lemma WaitersStay(w: State, a: Action)
    requires WaitersHold(w) && Possible(w, a)
    ensures WaitersHold(Perform(w, a))
  {
    var w' := Perform(w, a);
    forall t <- w'.waiting
      ensures Holds(w', t.0, Ref(CommKind, t.1))
    {
      if a.StartsWait? {
        TokensOf(a.process, a.addresses, t);
      }
      hide StorePossible, OnStore;
      assert Holds(w, t.0, Ref(CommKind, t.1));
      HandleStays(w, a, t.0, Ref(CommKind, t.1));
    }
  }

  /** A handle that somebody waits with is not destroyed. */
  lemma HandleStays(w: State, a: Action, q: Process, r: Ref)
    requires Possible(w, a) && Holds(w, q, r) && r.kind.CommKind?
    requires a.Destroys? ==> (q, r.address) in w.waiting
    ensures Holds(Perform(w, a), q, r)
  {
    hide StorePossible, OnStore;
  }

  lemma {:induction false} WaitersAlwaysHold(w: State, run: seq<Action>)
    requires WaitersHold(w) && IsRun(w, run)
    ensures WaitersHold(After(w, run))
    decreases |run|
  {
    if run != [] {
      WaitersStay(w, run[0]);
      hide WaitersHold, Possible, Perform;
      WaitersAlwaysHold(Perform(w, run[0]), run[1..]);
    }
  }

  /** While clients and store agree, an actor that comes back from a wait finds its entry, and a handle that
      is destroyed is one that nobody waits on. */
  lemma WaitFindsItsEntry(w: State, a: Action)
    requires Agrees(w) && WaitersHold(w) && Possible(w, a)
    ensures !Breaks(w, a)
    ensures a.Destroys? && a.ref.kind.CommKind? ==> forall t <- w.waiting :: t.1 != a.ref.address
  {
    hide StorePossible;
    if a.EndsWait? && 0 <= a.index < |a.addresses| {
      var t := (a.process, a.addresses[a.index]);
      TokensOf(a.process, a.addresses, t);
      assert t in w.waiting;
      assert InStore(w.store, Ref(CommKind, t.1));
    }
    if a.Destroys? && a.ref.kind.CommKind? {
      forall t <- w.waiting
        ensures t.1 != a.ref.address
      {
        assert Holds(w, t.0, Ref(CommKind, t.1)) && Holds(w, a.process, a.ref);
      }
    }
  }

  lemma {:induction false} UncopiedRunKeeps(w: State, run: seq<Action>)
    requires StoreOk(w.store) && Agrees(w) && WaitersHold(w) && !w.broken && IsRun(w, run) && NothingCopied(w, run)
    ensures Agrees(After(w, run)) && WaitersHold(After(w, run)) && !After(w, run).broken
    decreases |run|
  {
    if run != [] {
      ActionKeepsOk(w.store, run[0]);
      ActionAgrees(w, run[0]);
      WaitersStay(w, run[0]);
      WaitFindsItsEntry(w, run[0]);
      hide Agrees, WaitersHold, Possible, StoreOk, OnStore, HandlesAfter, WaitingAfter;
      UncopiedRunKeeps(Perform(w, run[0]), run[1..]);
    }
  }

  /** As long as no process forks with a handle, no assertion on the store fails and no erased entry is
      read: a blocked actor's communication stays in the store. */
  lemma NothingBreaksWithoutCopies(run: seq<Action>)
    requires IsRun(EMPTY_STATE, run) && NothingCopied(EMPTY_STATE, run)
    ensures var w := After(EMPTY_STATE, run);
            !w.broken && forall t <- w.waiting :: t.1 in w.store.comms
  {
    EmptyIsOk();
    UncopiedRunKeeps(EMPTY_STATE, run);
    hide IsRun, After;
    var w := After(EMPTY_STATE, run);
    forall t <- w.waiting
      ensures t.1 in w.store.comms
    {
      assert Holds(w, t.0, Ref(CommKind, t.1));
      assert InStore(w.store, Ref(CommKind, t.1));
    }
  }

  // ----- at most once

  predicate Releases(a: Action, c: Address) {
    a.Destroys? && a.ref == Ref(CommKind, c)
  }

  predicate NeverReleases(run: seq<Action>, c: Address) {
    forall i | 0 <= i < |run| :: !Releases(run[i], c)
  }

  predicate Emptied(s: Store, c: Address) {
    c in s.comms && s.comms[c].buffer.None?
  }

  lemma TakeLeavesEmpty(s: Store, d: Address, c: Address)
    requires Emptied(s, c)
    ensures Emptied(TakeIfOver(s, d), c)
  {
  }

  lemma DropLeavesEmpty(s: Store, r: Ref, c: Address)
    requires Emptied(s, c) && r != Ref(CommKind, c)
    ensures Emptied(Drop(s, r), c)
  {
  }

  /** The communications that an action adds to, or fills the buffers of, are others. */
  lemma OthersFill(s: Store, a: Action, c: Address)
    requires StorePossible(s, a) && Emptied(s, c) && !a.Destroys? && !a.Tests? && !a.EndsWait?
    requires Creation(a).Some? ==> !InStore(s, Ref(CommKind, Creation(a).value.1.address))
    ensures Emptied(OnStore(s, a), c)
  {
  }

  lemma StaysEmpty(s: Store, a: Action, c: Address)
    requires StoreOk(s) && StorePossible(s, a) && Emptied(s, c) && !Releases(a, c)
    ensures Emptied(OnStore(s, a), c)
  {
    hide StoreOk, Emptied, Drop, TakeIfOver;
    if Creation(a).Some? {
      CreationIsNew(s, a, CommKind);
    }
    match a {
      case Destroys(_, r) => DropLeavesEmpty(s, r, c);
      case Tests(_, d) => TakeLeavesEmpty(s, d, c);
      case EndsWait(_, ds, i) => if i >= 0 { TakeLeavesEmpty(s, ds[i], c); }
      case _ => OthersFill(s, a, c);
    }
  }

  /** A communication whose buffer was emptied yields no data as long as nobody releases it. */
  lemma {:induction false} EmptiedForGood(w: State, run: seq<Action>, c: Address)
    requires StoreOk(w.store) && IsRun(w, run) && NeverReleases(run, c) && Emptied(w.store, c)
    ensures Emptied(After(w, run).store, c) && Data(After(w, run).store, c) == None
    decreases |run|
  {
    if run != [] {
      ActionKeepsOk(w.store, run[0]);
      StaysEmpty(w.store, run[0], c);
      hide StoreOk, Emptied, StorePossible, ClientPossible, OnStore;
      EmptiedForGood(Perform(w, run[0]), run[1..], c);
    }
  }

  /** The first wait or test that finds the communication over hands the payload over, as it was put;
      it is not there for anyone else afterwards. */
  lemma TakenOnce(w: State, c: Address, run: seq<Action>)
    requires StoreOk(w.store) && c in w.store.comms && Terminated(w.store, c) && w.store.comms[c].buffer.Some?
    requires IsRun(w.(store := TakeData(w.store, c)), run) && NeverReleases(run, c)
    ensures Received(w.store, c).Some? && Received(w.store, c).value in w.store.puts
    ensures var p := Received(w.store, c).value;
            TakeData(w.store, c).acked == w.store.acked + [(p, w.store.puts[p])]
    ensures var s := After(w.(store := TakeData(w.store, c)), run).store; c in s.comms && Data(s, c) == None
  {
    FilledBuffer(w.store, c);
    TakeDataKeepsOk(w.store, c);
    hide StoreOk;
    EmptiedForGood(w.(store := TakeData(w.store, c)), run, c);
  }
}
