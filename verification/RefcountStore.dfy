/** The decisions of the SimGrid thread on remote objects: the part of `handle_decision` that uses the
    store. A decision that blocks is two methods, before and after the simcall. Every method is proved
    against the value-level store of module ObjectStore. */
module RefcountStores {
  import opened Wrappers
  import opened Wire
  import opened ObjectStore

  /** Acknowledgements. A field of bytes that is not set reads as empty. */
  datatype TestAck = TestFailed | Tested(isTerminated: bool, data: seq<byte>)
  datatype WaitForAck = WaitFailed | TimeoutReached | Waited(data: seq<byte>)
  datatype WaitAnyAck = WaitAnyAck(finishedIndex: int, data: seq<byte>)

  /** The entry was erased during the wait. After `wait_any_for` an assertion fails; after `wait_for` the
      iterator is used all the same, on memory that was freed. */
  datatype Inconsistency = EntryErased(address: Address)

  /** How SimGrid ends a wait. */
  datatype WaitOutcome = Over | Timeout | Cancelled

  function Bytes(data: Option<seq<byte>>): seq<byte> {
    if data.Some? then data.value else []
  }

  class RefcountStore {
    var comms: map<Address, Entry>
    var mutexes: map<Address, int>
    var conditionVariables: map<Address, int>

    // memory, and SimGrid
    var heap: map<Payload, seq<byte>>
    var buffers: map<Buffer, Option<Payload>>
    var terminated: set<Address>

    /** The state above as a value, with its history. */
    ghost var store: Store

    ghost predicate Agrees()
      reads this
    {
      && store.comms == comms && store.mutexes == mutexes && store.conditions == conditionVariables
      && store.heap == heap && store.buffers == buffers && store.terminated == terminated
    }

    ghost predicate Valid()
      reads this
    {
      Agrees() && StoreOk(store)
    }

    constructor ()
      ensures Valid() && store == EMPTY_STORE
    {
      comms, mutexes, conditionVariables := map[], map[], map[];
      heap, buffers, terminated := map[], map[], {};
      store := EMPTY_STORE;
      new;
      EmptyIsOk();
    }

    // ----- Comm

    method CommRefcountDecrease(address: Address) returns (success: bool)
      requires Valid()
      modifies this`comms, this`terminated, this`store
      ensures Valid()
      ensures success <==> address in old(comms)
      ensures store == if success then Release(old(store), address) else old(store)
      ensures comms == old(comms) - {address}
    {
      success := address in comms;
      if success {
        ReleaseKeepsOk(store, address);
        assert comms[address].remoteRefCount == 1;
        DropReference(address);
      }
    }

    method DropReference(address: Address)
      requires Agrees() && address in comms
      modifies this`comms, this`terminated, this`store
      ensures Agrees() && store == Release(old(store), address)
    {
      store := Release(store, address);
      if comms[address].remoteRefCount == 1 {
        comms := comms - {address};
        terminated := terminated - {address};
      } else {
        comms := comms[address := comms[address].(remoteRefCount := comms[address].remoteRefCount - 1)];
      }
    }

    /** The payload that was received goes in an acknowledgement; it is deleted, and the buffer too. */
    method TakeReceivedMessage(address: Address) returns (data: seq<byte>)
      requires Valid() && address in comms && address in terminated
      modifies this`comms, this`heap, this`buffers, this`store
      ensures Valid() && store == TakeData(old(store), address)
      ensures data == Bytes(Data(old(store), address))
    {
      TakeDataKeepsOk(store, address);
      data := [];
      if comms[address].buffer.Some? {
        data := EmptyBuffer(address);
      }
    }

    method EmptyBuffer(address: Address) returns (data: seq<byte>)
      requires Agrees() && address in comms && HasData(store, address)
      modifies this`comms, this`heap, this`buffers, this`store
      ensures Agrees() && store == TakeData(old(store), address)
      ensures data == Bytes(Data(old(store), address))
    {
      var buffer := comms[address].buffer.value;
      var message := buffers[buffer].value;
      data := heap[message];
      ghost var next := TakeData(store, address);
      heap := heap - {message};
      buffers := buffers - {buffer};
      comms := comms[address := comms[address].(buffer := None)];
      store := next;
    }

    method CommTest(address: Address) returns (ack: TestAck)
      requires Valid()
      modifies this`comms, this`heap, this`buffers, this`store
      ensures Valid()
      ensures ack.TestFailed? <==> address !in old(comms)
      ensures ack.Tested? ==> (ack.isTerminated <==> Terminated(old(store), address))
      ensures ack.Tested? && ack.isTerminated ==>
                store == TakeData(old(store), address) && ack.data == Bytes(Data(old(store), address))
      ensures ack.Tested? && !ack.isTerminated ==> store == old(store) && ack.data == []
      ensures ack.TestFailed? ==> store == old(store)
    {
      if address !in comms {
        return TestFailed;
      }
      ack := Tested(address in terminated, []);
      if ack.isTerminated {
        var data := TakeReceivedMessage(address);
        ack := Tested(true, data);
      }
    }

    /** The look-up before a `wait_for`. */
    method CommWaitForStart(address: Address) returns (success: bool)
      ensures success <==> address in comms
    {
      success := address in comms;
    }

    /** After the simcall. Other actors have run meanwhile. */
    method CommWaitForEnd(address: Address, outcome: WaitOutcome) returns (r: Result<WaitForAck, Inconsistency>)
      requires Valid() && (outcome.Over? && address in comms ==> address in terminated)
      modifies this`comms, this`heap, this`buffers, this`store
      ensures Valid()
      ensures match outcome
              case Over =>
                if address in old(comms) then
                  store == TakeData(old(store), address) && r == Ok(Waited(Bytes(Data(old(store), address))))
                else
                  store == old(store) && r == Err(EntryErased(address))
              case Timeout => store == old(store) && r == Ok(TimeoutReached)
              case Cancelled => store == old(store) && r == Ok(WaitFailed)
    {
      match outcome {
        case Over =>
          if address in comms {
            var data := TakeReceivedMessage(address);
            r := Ok(Waited(data));
          } else {
            r := Err(EntryErased(address));
          }
        case Timeout => r := Ok(TimeoutReached);
        case Cancelled => r := Ok(WaitFailed);
      }
    }

    /** The vector given to SimGrid is in the order of the request; an unknown communication is an error
        that ends the actor. */
    method CommWaitAnyForStart(addresses: seq<Address>) returns (r: Result<seq<Address>, Address>)
      ensures r.Ok? <==> forall a <- addresses :: a in comms
      ensures r.Ok? ==> r.value == addresses
      ensures r.Err? ==> r.error in addresses && r.error !in comms
    {
      var found := [];
      var i := 0;
      while i < |addresses|
        invariant 0 <= i <= |addresses| && found == addresses[..i]
        invariant forall a <- found :: a in comms
      {
        if addresses[i] !in comms {
          return Err(addresses[i]);
        }
        found := found + [addresses[i]];
        i := i + 1;
      }
      r := Ok(found);
    }

    /** `finishedIndex` is what SimGrid's `wait_any_for` returned on the vector: -1 after a timeout. */
    method CommWaitAnyForEnd(addresses: seq<Address>, finishedIndex: int) returns (r: Result<WaitAnyAck, Inconsistency>)
      requires Valid() && -1 <= finishedIndex < |addresses|
      requires finishedIndex >= 0 && addresses[finishedIndex] in comms ==> addresses[finishedIndex] in terminated
      modifies this`comms, this`heap, this`buffers, this`store
      ensures Valid()
      ensures if finishedIndex < 0 then
                store == old(store) && r == Ok(WaitAnyAck(finishedIndex, []))
              else
                var address := addresses[finishedIndex];
                if address in old(comms) then
                  && store == TakeData(old(store), address)
                  && r == Ok(WaitAnyAck(finishedIndex, Bytes(Data(old(store), address))))
                else
                  store == old(store) && r == Err(EntryErased(address))
    {
      if finishedIndex < 0 {
        return Ok(WaitAnyAck(finishedIndex, []));
      }
      var address := addresses[finishedIndex];
      if address !in comms {
        return Err(EntryErased(address));
      }
      var data := TakeReceivedMessage(address);
      r := Ok(WaitAnyAck(finishedIndex, data));
    }

    // ----- Mailbox

    method AllocateMessage(p: Payload, data: seq<byte>)
      requires Valid() && p !in store.place
      modifies this`heap, this`store
      ensures Valid() && store == Send(old(store), p, data)
      ensures heap == old(heap)[p := data] && store.puts == old(store.puts)[p := data]
    {
      SendKeepsOk(store, p, data);
      heap := heap[p := data];
      store := Send(store, p, data);
    }

    /** The new communication is never in the store already: the check never fails. */
    method InsertComm(address: Address, buffer: Option<Buffer>)
      requires Valid() && address !in store.live && (buffer.Some? ==> buffer.value !in buffers)
      modifies this`comms, this`buffers, this`store
      ensures Valid() && store == AddComm(old(store), address, buffer) && address !in old(comms)
      ensures comms == old(comms)[address := Entry(buffer, 1)]
      ensures buffers == if buffer.Some? then old(buffers)[buffer.value := None] else old(buffers)
    {
      AddCommKeepsOk(store, address, buffer);
      assert address !in comms;
      RecordComm(address, buffer);
    }

    method RecordComm(address: Address, buffer: Option<Buffer>)
      requires Agrees()
      modifies this`comms, this`buffers, this`store
      ensures Agrees() && store == AddComm(old(store), address, buffer)
    {
      comms := comms[address := Entry(buffer, 1)];
      if buffer.Some? {
        buffers := buffers[buffer.value := None];
      }
      store := AddComm(store, address, buffer);
    }

    method MailboxPutAsync(data: seq<byte>, p: Payload, address: Address) returns (commAddress: Address)
      requires Valid() && p !in store.place && address !in store.live
      modifies this`comms, this`buffers, this`heap, this`store
      ensures Valid() && store == AddComm(Send(old(store), p, data), address, None) && commAddress == address
      ensures heap == old(heap)[p := data] && store.puts == old(store.puts)[p := data]
      ensures comms == old(comms)[address := Entry(None, 1)] && buffers == old(buffers)
    {
      AllocateMessage(p, data);
      InsertComm(address, None);
      commAddress := address;
    }

    method MailboxGetAsync(buffer: Buffer, address: Address) returns (commAddress: Address)
      requires Valid() && buffer !in buffers && address !in store.live
      modifies this`comms, this`buffers, this`store
      ensures Valid() && store == AddComm(old(store), address, Some(buffer)) && commAddress == address
      ensures comms == old(comms)[address := Entry(Some(buffer), 1)] && buffers == old(buffers)[buffer := None]
    {
      InsertComm(address, Some(buffer));
      commAddress := address;
    }

    /** The end of a blocking `get`: the acknowledgement is written before the message is deleted. */
    method MailboxGetEnd(message: Payload) returns (data: seq<byte>)
      requires Valid() && message in store.place && store.place[message].Flying?
      modifies this`heap, this`store
      ensures Valid() && message in old(heap) && store == HandOver(old(store), message)
      ensures data == old(heap)[message] == old(store).puts[message] && heap == old(heap) - {message}
    {
      HandOverKeepsOk(store, message);
      data := DeleteMessage(message);
    }

    method DeleteMessage(message: Payload) returns (data: seq<byte>)
      requires Agrees() && message in heap
      modifies this`heap, this`store
      ensures Agrees() && store == HandOver(old(store), message) && data == old(heap)[message]
    {
      data := heap[message];
      store := HandOver(store, message);
      heap := heap - {message};
    }

    // ----- Mutex and ConditionVariable

    method MutexCreate(address: Address)
      requires Valid() && address !in store.live
      modifies this`mutexes, this`store
      ensures Valid() && store == AddMutex(old(store), address) && address !in old(mutexes)
      ensures mutexes == old(mutexes)[address := 1]
    {
      AddMutexKeepsOk(store, address);
      mutexes := mutexes[address := 1];
      store := AddMutex(store, address);
    }

    method MutexRefcountDecrease(address: Address) returns (success: bool)
      requires Valid()
      modifies this`mutexes, this`store
      ensures Valid() && (success <==> address in old(mutexes)) && mutexes == old(mutexes) - {address}
      ensures store == if success then ReleaseMutex(old(store), address) else old(store)
    {
      success := address in mutexes;
      if success {
        ReleaseMutexKeepsOk(store, address);
        DropMutexReference(address);
      }
    }

    method DropMutexReference(address: Address)
      requires Agrees() && address in mutexes
      modifies this`mutexes, this`store
      ensures Agrees() && store == ReleaseMutex(old(store), address)
    {
      store := ReleaseMutex(store, address);
      if mutexes[address] == 1 {
        mutexes := mutexes - {address};
      } else {
        mutexes := mutexes[address := mutexes[address] - 1];
      }
    }

    method ConditionVariableCreate(address: Address)
      requires Valid() && address !in store.live
      modifies this`conditionVariables, this`store
      ensures Valid() && store == AddCondition(old(store), address) && address !in old(conditionVariables)
      ensures conditionVariables == old(conditionVariables)[address := 1]
    {
      AddConditionKeepsOk(store, address);
      conditionVariables := conditionVariables[address := 1];
      store := AddCondition(store, address);
    }

    method ConditionVariableRefcountDecrease(address: Address) returns (success: bool)
      requires Valid()
      modifies this`conditionVariables, this`store
      ensures Valid() && (success <==> address in old(conditionVariables))
      ensures conditionVariables == old(conditionVariables) - {address}
      ensures store == if success then ReleaseCondition(old(store), address) else old(store)
    {
      success := address in conditionVariables;
      if success {
        ReleaseConditionKeepsOk(store, address);
        DropConditionVariableReference(address);
      }
    }

    method DropConditionVariableReference(address: Address)
      requires Agrees() && address in conditionVariables
      modifies this`conditionVariables, this`store
      ensures Agrees() && store == ReleaseCondition(old(store), address)
    {
      store := ReleaseCondition(store, address);
      if conditionVariables[address] == 1 {
        conditionVariables := conditionVariables - {address};
      } else {
        conditionVariables := conditionVariables[address := conditionVariables[address] - 1];
      }
    }

    // ----- SimGrid

    /** A transfer ends: the pointer is copied in the reception buffer of the receiver. */
    method EndTransfer(p: Payload, buffer: Buffer)
      requires Valid() && p in store.place && store.place[p].Flying? && buffer in buffers && buffers[buffer].None?
      modifies this`buffers, this`terminated, this`store
      ensures Valid() && store == Fill(old(store), p, buffer) && buffers == old(buffers)[buffer := Some(p)]
      ensures forall a :: a in terminated <==> a in old(terminated) || (a in comms && comms[a].buffer == Some(buffer))
    {
      FillKeepsOk(store, p, buffer);
      WritePointer(p, buffer);
    }

    method WritePointer(p: Payload, buffer: Buffer)
      requires Agrees()
      modifies this`buffers, this`terminated, this`store
      ensures Agrees() && store == Fill(old(store), p, buffer)
    {
      store := Fill(store, p, buffer);
      buffers := buffers[buffer := Some(p)];
      terminated := terminated + set a | a in comms && comms[a].buffer == Some(buffer);
    }
  }
}
