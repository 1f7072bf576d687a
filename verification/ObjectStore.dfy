/** The remote objects of the simulation as a value: the store of the server, the memory that payloads
    and reception buffers live in, and what SimGrid does to them. Each step is the part of a decision
    between two simcalls. */
module ObjectStore {
  import opened Wrappers
  import opened Wire

  type Address = nat
  type Buffer = nat
  type Payload = nat

  /** A communication in the store: the reception buffer, until it is emptied, and the references that
      clients hold. */
  datatype Entry = Entry(buffer: Option<Buffer>, remoteRefCount: int)

  /** Where a payload is: in SimGrid, in a reception buffer, or freed. */
  datatype Where = Flying | InBuffer(buffer: Buffer) | Freed

  /** `comms`, `mutexes` and `conditions` are the store (the last two with their reference counts).
      `heap` and `buffers` are memory; a buffer is filled when its transfer ends. `live` are the addresses
      of objects that exist, `refs` the references that the store holds on them, `terminated` the
      communications that are over. `puts`, `acked` and `place` are history: what was sent, what was
      handed over. */
  datatype Store = Store(
    comms: map<Address, Entry>,
    mutexes: map<Address, int>,
    conditions: map<Address, int>,
    heap: map<Payload, seq<byte>>,
    buffers: map<Buffer, Option<Payload>>,
    live: set<Address>,
    refs: multiset<Address>,
    terminated: set<Address>,
    puts: map<Payload, seq<byte>>,
    place: map<Payload, Where>,
    acked: seq<(Payload, seq<byte>)>)

  const EMPTY_STORE := Store(map[], map[], map[], map[], map[], {}, multiset{}, {}, map[], map[], [])

  // ----- invariant

  /** A payload is in memory until it is freed, and is what its sender put. */
  ghost predicate PayloadsOk(s: Store) {
    && s.place.Keys == s.puts.Keys
    && (forall p :: p in s.heap <==> p in s.place && !s.place[p].Freed?)
    && (forall p <- s.heap :: s.heap[p] == s.puts[p])
    && (forall b, p :: (b in s.buffers && s.buffers[b] == Some(p)) <==> (p in s.place && s.place[p] == InBuffer(b)))
  }

  ghost predicate WasAcked(acked: seq<(Payload, seq<byte>)>, p: Payload) {
    exists i :: 0 <= i < |acked| && acked[i].0 == p
  }

  /** Each payload was handed over at most once, as it was put, and was freed then and only then. */
  ghost predicate AcksOk(s: Store) {
    && (forall i | 0 <= i < |s.acked| ::
          s.acked[i].0 in s.puts && s.acked[i].1 == s.puts[s.acked[i].0])
    && (forall i | 0 <= i < |s.acked| :: s.acked[i].0 in s.place && s.place[s.acked[i].0].Freed?)
    && (forall i, j | 0 <= i < j < |s.acked| :: s.acked[i].0 != s.acked[j].0)
    && (forall p <- s.place :: s.place[p].Freed? ==> WasAcked(s.acked, p))
  }

  predicate Terminated(s: Store, a: Address) {
    a in s.terminated
  }

  /** An entry has its own buffer; that of a communication that is over has been filled. */
  ghost predicate EntriesOk(s: Store) {
    && (forall a <- s.comms :: s.comms[a].remoteRefCount == 1)
    && (forall a <- s.comms :: s.comms[a].buffer.Some? ==> s.comms[a].buffer.value in s.buffers)
    && (forall a, c | a in s.comms && c in s.comms && a != c && s.comms[a].buffer.Some? ::
          s.comms[a].buffer != s.comms[c].buffer)
    && (forall a <- s.terminated :: a in s.comms)
    && (forall a | a in s.comms && s.comms[a].buffer.Some? ::
          Terminated(s, a) <==> s.buffers[s.comms[a].buffer.value].Some?)
  }

  predicate Stored(s: Store, a: Address) {
    a in s.comms || a in s.mutexes || a in s.conditions
  }

  /** The store has one reference on each of its objects, which exist and are at different addresses. */
  ghost predicate RefsOk(s: Store) {
    && (forall a :: s.refs[a] == if Stored(s, a) then 1 else 0)
    && (forall a <- s.refs :: a in s.live)
    && (forall a <- s.mutexes :: a !in s.comms && a !in s.conditions && s.mutexes[a] == 1)
    && (forall a <- s.conditions :: a !in s.comms && a !in s.mutexes && s.conditions[a] == 1)
  }

  ghost predicate StoreOk(s: Store) {
    PayloadsOk(s) && AcksOk(s) && EntriesOk(s) && RefsOk(s)
  }

  // ----- steps

  /** A put allocates a copy of the data and gives it to SimGrid. */
  function Send(s: Store, p: Payload, data: seq<byte>): Store {
    s.(heap := s.heap[p := data], puts := s.puts[p := data], place := s.place[p := Flying])
  }

  /** A new communication at `a` enters the store. */
  function AddComm(s: Store, a: Address, buffer: Option<Buffer>): Store {
    s.(comms := s.comms[a := Entry(buffer, 1)], live := s.live + {a},
       refs := s.refs + multiset{a}, buffers := if buffer.Some? then s.buffers[buffer.value := None] else s.buffers)
  }

  /** The data of `p` is written in an acknowledgement and its memory freed. */
  function HandOver(s: Store, p: Payload): Store
    requires p in s.heap
  {
    s.(acked := s.acked + [(p, s.heap[p])], heap := s.heap - {p}, place := s.place[p := Freed])
  }

  /** The payload that the reception buffer of a communication points to. */
  function Received(s: Store, a: Address): Option<Payload>
    requires a in s.comms
  {
    if s.comms[a].buffer.Some? && s.comms[a].buffer.value in s.buffers then s.buffers[s.comms[a].buffer.value] else None
  }

  predicate HasData(s: Store, a: Address)
    requires a in s.comms
  {
    s.comms[a].buffer.Some? && Received(s, a).Some? && Received(s, a).value in s.heap
  }

  /** What `test`, `wait_for` and `wait_any_for` do with a communication that is over: the data that
      was received is handed over, and the payload and the buffer are freed. */
  function TakeData(s: Store, a: Address): Store
    requires a in s.comms
  {
    if HasData(s, a) then
      HandOver(s, Received(s, a).value)
        .(buffers := s.buffers - {s.comms[a].buffer.value}, comms := s.comms[a := s.comms[a].(buffer := None)])
    else s
  }

  function Data(s: Store, a: Address): Option<seq<byte>>
    requires a in s.comms
  {
    if HasData(s, a) then Some(s.heap[Received(s, a).value]) else None
  }

  /** A transfer ends in buffer `b`, which need not be that of an entry any more. */
  function Fill(s: Store, p: Payload, b: Buffer): Store {
    s.(buffers := s.buffers[b := Some(p)], place := s.place[p := InBuffer(b)],
       terminated := s.terminated + set a | a in s.comms && s.comms[a].buffer == Some(b))
  }

  /** A client has dropped its last handle on the communication at `a`. */
  function Release(s: Store, a: Address): Store
    requires a in s.comms
  {
    if s.comms[a].remoteRefCount == 1 then
      s.(comms := s.comms - {a}, terminated := s.terminated - {a}, refs := s.refs - multiset{a})
    else
      s.(comms := s.comms[a := s.comms[a].(remoteRefCount := s.comms[a].remoteRefCount - 1)])
  }

  function AddMutex(s: Store, a: Address): Store {
    s.(mutexes := s.mutexes[a := 1], live := s.live + {a}, refs := s.refs + multiset{a})
  }

  function ReleaseMutex(s: Store, a: Address): Store
    requires a in s.mutexes
  {
    if s.mutexes[a] == 1 then
      s.(mutexes := s.mutexes - {a}, refs := s.refs - multiset{a})
    else
      s.(mutexes := s.mutexes[a := s.mutexes[a] - 1])
  }

  function AddCondition(s: Store, a: Address): Store {
    s.(conditions := s.conditions[a := 1], live := s.live + {a}, refs := s.refs + multiset{a})
  }

  function ReleaseCondition(s: Store, a: Address): Store
    requires a in s.conditions
  {
    if s.conditions[a] == 1 then
      s.(conditions := s.conditions - {a}, refs := s.refs - multiset{a})
    else
      s.(conditions := s.conditions[a := s.conditions[a] - 1])
  }

  // ----- the invariant is kept

  lemma EmptyIsOk()
    ensures StoreOk(EMPTY_STORE)
  {
  }

  lemma SameMemory(s: Store, t: Store)
    requires PayloadsOk(s) && AcksOk(s) && EntriesOk(s)
    requires t.heap == s.heap && t.puts == s.puts && t.place == s.place && t.acked == s.acked && t.buffers == s.buffers
    requires t.comms == s.comms && t.terminated == s.terminated
    ensures PayloadsOk(t) && AcksOk(t) && EntriesOk(t)
  {
  }

  lemma SendKeepsOk(s: Store, p: Payload, data: seq<byte>)
    requires StoreOk(s) && p !in s.place
    ensures StoreOk(Send(s, p, data))
  {
    SendPayloads(s, p, data);
    SendAcks(s, p, data);
  }

  lemma SendPayloads(s: Store, p: Payload, data: seq<byte>)
    requires PayloadsOk(s) && p !in s.place
    ensures PayloadsOk(Send(s, p, data))
  {
  }

  lemma SendAcks(s: Store, p: Payload, data: seq<byte>)
    requires PayloadsOk(s) && AcksOk(s) && p !in s.place
    ensures AcksOk(Send(s, p, data))
  {
  }

  /** The address of a new object is not in the store: what is there is alive. */
  lemma AddCommKeepsOk(s: Store, a: Address, buffer: Option<Buffer>)
    requires StoreOk(s) && a !in s.live && (buffer.Some? ==> buffer.value !in s.buffers)
    ensures !Stored(s, a) && StoreOk(AddComm(s, a, buffer))
  {
    AddCommRefs(s, a, buffer);
    AddCommEntries(s, a, buffer);
    AddCommPayloads(s, a, buffer);
  }

  lemma AddCommPayloads(s: Store, a: Address, buffer: Option<Buffer>)
    requires PayloadsOk(s) && (buffer.Some? ==> buffer.value !in s.buffers)
    ensures PayloadsOk(AddComm(s, a, buffer))
  {
  }

  lemma AddCommEntries(s: Store, a: Address, buffer: Option<Buffer>)
    requires EntriesOk(s) && a !in s.comms && (buffer.Some? ==> buffer.value !in s.buffers)
    ensures EntriesOk(AddComm(s, a, buffer))
  {
  }

  lemma AddCommRefs(s: Store, a: Address, buffer: Option<Buffer>)
    requires RefsOk(s) && a !in s.live
    ensures !Stored(s, a) && RefsOk(AddComm(s, a, buffer))
  {
    assert a !in s.refs;
  }

  /** Reading the buffer of a communication that is over is reading a payload that exists. */
  lemma FilledBuffer(s: Store, a: Address)
    requires PayloadsOk(s) && EntriesOk(s) && a in s.comms && Terminated(s, a) && s.comms[a].buffer.Some?
    ensures var b := s.comms[a].buffer.value;
            b in s.buffers && s.buffers[b].Some? && s.buffers[b].value in s.heap && s.buffers[b].value in s.puts
            && s.heap[s.buffers[b].value] == s.puts[s.buffers[b].value]
            && s.buffers[b].value in s.place && s.place[s.buffers[b].value] == InBuffer(b)
  {
    var b := s.comms[a].buffer.value;
    assert b in s.buffers && s.buffers[b].Some?;
    assert s.place[s.buffers[b].value] == InBuffer(b);
  }

  lemma TakePayloads(s: Store, a: Address)
    requires PayloadsOk(s) && EntriesOk(s) && a in s.comms && Terminated(s, a) && s.comms[a].buffer.Some?
    ensures HasData(s, a) && PayloadsOk(TakeData(s, a))
  {
    FilledBuffer(s, a);
  }

  lemma OneMoreAck(acked: seq<(Payload, seq<byte>)>, p: Payload, data: seq<byte>)
    ensures forall q :: WasAcked(acked + [(p, data)], q) <==> WasAcked(acked, q) || q == p
  {
    var more := acked + [(p, data)];
    assert more[|acked|].0 == p;
    forall q | WasAcked(acked, q)
      ensures WasAcked(more, q)
    {
      var i :| 0 <= i < |acked| && acked[i].0 == q;
      assert more[i].0 == q;
    }
  }

  lemma HandOverAcks(s: Store, p: Payload)
    requires AcksOk(s) && p in s.heap && p in s.puts && s.heap[p] == s.puts[p] && p in s.place && !s.place[p].Freed?
    ensures AcksOk(HandOver(s, p))
  {
    OneMoreAck(s.acked, p, s.heap[p]);
  }

  lemma TakeEntries(s: Store, a: Address)
    requires EntriesOk(s) && a in s.comms && HasData(s, a)
    ensures EntriesOk(TakeData(s, a))
  {
  }

  lemma TakeRest(s: Store, a: Address)
    requires RefsOk(s) && a in s.comms && HasData(s, a)
    ensures RefsOk(TakeData(s, a)) && TakeData(s, a).acked == HandOver(s, Received(s, a).value).acked
    ensures AcksOk(HandOver(s, Received(s, a).value)) ==> AcksOk(TakeData(s, a))
  {
    assert TakeData(s, a).comms.Keys == s.comms.Keys;
  }

  lemma TakeDataKeepsOk(s: Store, a: Address)
    requires StoreOk(s) && a in s.comms && Terminated(s, a)
    ensures HasData(s, a) <==> s.comms[a].buffer.Some?
    ensures StoreOk(TakeData(s, a))
    ensures s.comms[a].buffer.Some? ==>
              && Data(s, a) == Some(s.puts[Received(s, a).value])
              && s.place[Received(s, a).value] == InBuffer(s.comms[a].buffer.value)
  {
    if s.comms[a].buffer.Some? {
      FilledBuffer(s, a);
      TakePayloads(s, a);
      HandOverAcks(s, Received(s, a).value);
      TakeEntries(s, a);
      TakeRest(s, a);
      hide PayloadsOk, AcksOk, EntriesOk, RefsOk, TakeData;
    }
  }

  lemma FillKeepsOk(s: Store, p: Payload, b: Buffer)
    requires StoreOk(s) && p in s.place && s.place[p].Flying? && b in s.buffers && s.buffers[b].None?
    ensures StoreOk(Fill(s, p, b))
  {
    FillPayloads(s, p, b);
    FillAcks(s, p, b);
    FillEntries(s, p, b);
  }

  lemma FillPayloads(s: Store, p: Payload, b: Buffer)
    requires PayloadsOk(s) && p in s.place && s.place[p].Flying? && b in s.buffers && s.buffers[b].None?
    ensures PayloadsOk(Fill(s, p, b))
  {
  }

  lemma FillAcks(s: Store, p: Payload, b: Buffer)
    requires AcksOk(s) && p in s.place && s.place[p].Flying?
    ensures AcksOk(Fill(s, p, b))
  {
  }

  lemma FillEntries(s: Store, p: Payload, b: Buffer)
    requires EntriesOk(s) && b in s.buffers && s.buffers[b].None?
    ensures EntriesOk(Fill(s, p, b))
  {
  }

  /** The decrement never happens: the count of an entry is always 1. */
  lemma ReleaseKeepsOk(s: Store, a: Address)
    requires StoreOk(s) && a in s.comms
    ensures StoreOk(Release(s, a)) && Release(s, a).comms == s.comms - {a}
  {
    ReleaseEntries(s, a);
    ReleaseRefs(s, a);
  }

  lemma ReleaseEntries(s: Store, a: Address)
    requires EntriesOk(s) && a in s.comms
    ensures EntriesOk(Release(s, a))
  {
  }

  lemma ReleaseRefs(s: Store, a: Address)
    requires RefsOk(s) && a in s.comms && s.comms[a].remoteRefCount == 1
    ensures RefsOk(Release(s, a))
  {
  }

  lemma HandOverKeepsOk(s: Store, p: Payload)
    requires StoreOk(s) && p in s.place && s.place[p].Flying?
    ensures p in s.heap && s.heap[p] == s.puts[p] && StoreOk(HandOver(s, p))
  {
    HandOverPayloads(s, p);
    HandOverAcks(s, p);
  }

  lemma HandOverPayloads(s: Store, p: Payload)
    requires PayloadsOk(s) && p in s.place && s.place[p].Flying?
    ensures p in s.heap && PayloadsOk(HandOver(s, p))
  {
  }

  lemma AddMutexRefs(s: Store, a: Address)
    requires RefsOk(s) && a !in s.live
    ensures !Stored(s, a) && RefsOk(AddMutex(s, a))
  {
    assert a !in s.refs;
  }

  lemma ReleaseMutexRefs(s: Store, a: Address)
    requires RefsOk(s) && a in s.mutexes
    ensures RefsOk(ReleaseMutex(s, a)) && ReleaseMutex(s, a).mutexes == s.mutexes - {a}
  {
  }

  lemma AddConditionRefs(s: Store, a: Address)
    requires RefsOk(s) && a !in s.live
    ensures !Stored(s, a) && RefsOk(AddCondition(s, a))
  {
    assert a !in s.refs;
  }

  lemma ReleaseConditionRefs(s: Store, a: Address)
    requires RefsOk(s) && a in s.conditions
    ensures RefsOk(ReleaseCondition(s, a)) && ReleaseCondition(s, a).conditions == s.conditions - {a}
  {
  }

  lemma AddMutexKeepsOk(s: Store, a: Address)
    requires StoreOk(s) && a !in s.live
    ensures !Stored(s, a) && StoreOk(AddMutex(s, a))
  {
    AddMutexRefs(s, a);
    SameMemory(s, AddMutex(s, a));
  }

  lemma ReleaseMutexKeepsOk(s: Store, a: Address)
    requires StoreOk(s) && a in s.mutexes
    ensures ReleaseMutex(s, a).mutexes == s.mutexes - {a} && StoreOk(ReleaseMutex(s, a))
  {
    ReleaseMutexRefs(s, a);
    SameMemory(s, ReleaseMutex(s, a));
  }

  lemma AddConditionKeepsOk(s: Store, a: Address)
    requires StoreOk(s) && a !in s.live
    ensures !Stored(s, a) && StoreOk(AddCondition(s, a))
  {
    AddConditionRefs(s, a);
    SameMemory(s, AddCondition(s, a));
  }

  lemma ReleaseConditionKeepsOk(s: Store, a: Address)
    requires StoreOk(s) && a in s.conditions
    ensures ReleaseCondition(s, a).conditions == s.conditions - {a} && StoreOk(ReleaseCondition(s, a))
  {
    ReleaseConditionRefs(s, a);
    SameMemory(s, ReleaseCondition(s, a));
  }
}
