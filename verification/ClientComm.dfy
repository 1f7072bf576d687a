/** The client's handles on communications: requests in the order of the caller's list, and received
    data written through the handle it belongs to. */
module ClientComms {
  import opened Wrappers
  import opened Wire
  import opened ObjectStore
  import opened RefcountStores

  /** The pointer of the user that a reception writes, when it does. */
  class Destination {
    var buffer: Option<seq<byte>>

    constructor ()
      ensures buffer == None
    {
      buffer := None;
    }
  }

  /** What stops a client: errors that the server reports, and failed assertions. */
  datatype ClientError =
    | NotSuccessful
    | TimedOut
    | NoData
    | NoDestination
    | ServerFailed(inconsistency: Inconsistency)

  /** What a client makes of the answer to `wait_for`: a handle with a destination insists on data. */
  function WaitResult(ack: WaitForAck, hasDestination: bool): Result<(), ClientError> {
    match ack
    case WaitFailed => Err(NotSuccessful)
    case TimeoutReached => Err(TimedOut)
    case Waited(data) => if hasDestination && data == [] then Err(NoData) else Ok(())
  }

  class Comm {
    const remoteAddress: Address
    const destination: Destination?

    constructor (remoteAddress: Address, destination: Destination?)
      ensures this.remoteAddress == remoteAddress && this.destination == destination
    {
      this.remoteAddress := remoteAddress;
      this.destination := destination;
    }

    /** A copy of the data for the user. */
    method Deliver(data: seq<byte>)
      requires destination != null
      modifies destination
      ensures destination.buffer == Some(data)
    {
      destination.buffer := Some(data);
    }

    /** `test`. Data comes with a reception that ends, if it was not taken before and is not empty; it
        needs a destination. */
    method Test(server: RefcountStore) returns (r: Result<bool, ClientError>)
      requires server.Valid()
      modifies server, destination
      ensures server.Valid()
      ensures r == Err(NotSuccessful) <==> remoteAddress !in old(server.comms)
      ensures r.Ok? ==> (r.value <==> Terminated(old(server.store), remoteAddress))
      ensures remoteAddress in old(server.comms) && Terminated(old(server.store), remoteAddress) ==>
                server.store == TakeData(old(server.store), remoteAddress)
      ensures remoteAddress in old(server.comms) && !Terminated(old(server.store), remoteAddress) ==>
                server.store == old(server.store) && r == Ok(false)
      ensures r == Err(NoDestination) <==>
                && destination == null && remoteAddress in old(server.comms) && Terminated(old(server.store), remoteAddress)
                && Bytes(Data(old(server.store), remoteAddress)) != []
      ensures destination != null ==>
                destination.buffer ==
                if r == Ok(true) && Bytes(Data(old(server.store), remoteAddress)) != [] then
                  Data(old(server.store), remoteAddress)
                else
                  old(destination.buffer)
    {
      hide StoreOk, TakeData, Data;
      var ack := server.CommTest(remoteAddress);
      if ack.TestFailed? {
        return Err(NotSuccessful);
      }
      if |ack.data| > 0 {
        if destination == null {
          return Err(NoDestination);
        }
        Deliver(ack.data);
      }
      r := Ok(ack.isTerminated);
    }

    /** `wait_for`, once the server has answered. */
    method FinishWaitFor(ack: WaitForAck) returns (r: Result<(), ClientError>)
      modifies destination
      ensures r == WaitResult(ack, destination != null)
      ensures destination != null ==>
                destination.buffer == if r.Ok? then Some(ack.data) else old(destination.buffer)
    {
      match ack {
        case WaitFailed => return Err(NotSuccessful);
        case TimeoutReached => return Err(TimedOut);
        case Waited(data) =>
          if destination != null {
            if |data| == 0 {
              return Err(NoData);
            }
            Deliver(data);
          }
          r := Ok(());
      }
    }

    /** A wait that SimGrid ended, seen from both sides. The assertion on the data fails exactly when a
        reception was emptied before, or was sent no bytes. */
    method WaitForEnd(server: RefcountStore, outcome: WaitOutcome) returns (r: Result<(), ClientError>)
      requires server.Valid() && (outcome.Over? && remoteAddress in server.comms ==> remoteAddress in server.terminated)
      modifies server, destination
      ensures server.Valid()
      ensures r.Ok? ==> outcome.Over? && remoteAddress in old(server.comms)
      ensures outcome.Over? && remoteAddress in old(server.comms) ==>
                && server.store == TakeData(old(server.store), remoteAddress)
                && r == WaitResult(Waited(Bytes(Data(old(server.store), remoteAddress))), destination != null)
      ensures r == Err(NoData) <==>
                && outcome.Over? && destination != null && remoteAddress in old(server.comms)
                && (old(server.comms)[remoteAddress].buffer.None? || Data(old(server.store), remoteAddress) == Some([]))
      ensures destination != null ==>
                if r.Ok? then destination.buffer == Some(Bytes(Data(old(server.store), remoteAddress)))
                else destination.buffer == old(destination.buffer)
      ensures outcome.Over? && remoteAddress !in old(server.comms) ==> r == Err(ServerFailed(EntryErased(remoteAddress)))
      ensures outcome.Timeout? ==> r == Err(TimedOut)
      ensures outcome.Cancelled? ==> r == Err(NotSuccessful)
    {
      if outcome.Over? && remoteAddress in server.comms {
        NoBytes(server.store, remoteAddress);
      }
      hide StoreOk, TakeData, Data;
      var ack := server.CommWaitForEnd(remoteAddress, outcome);
      if ack.Err? {
        return Err(ServerFailed(ack.error));
      }
      r := FinishWaitFor(ack.value);
    }
  }

  lemma NoBytes(s: Store, a: Address)
    requires StoreOk(s) && a in s.comms && Terminated(s, a)
    ensures Bytes(Data(s, a)) == [] <==> s.comms[a].buffer.None? || Data(s, a) == Some([])
  {
    TakeDataKeepsOk(s, a);
    hide StoreOk;
  }

  function Addresses(comms: seq<Comm>): (r: seq<Address>)
    ensures |r| == |comms| && forall i | 0 <= i < |comms| :: r[i] == comms[i].remoteAddress
  {
    if comms == [] then [] else [comms[0].remoteAddress] + Addresses(comms[1..])
  }

  /** The request of `wait_any_for`. */
  method BuildRequest(comms: seq<Comm>) returns (addresses: seq<Address>)
    ensures addresses == Addresses(comms)
  {
    addresses := [];
    var i := 0;
    while i < |comms|
      invariant 0 <= i <= |comms| && |addresses| == i
      invariant forall j | 0 <= j < i :: addresses[j] == comms[j].remoteAddress
    {
      addresses := addresses + [comms[i].remoteAddress];
      i := i + 1;
    }
  }

  function Destinations(comms: seq<Comm>): set<Destination> {
    set c | c in comms && c.destination != null :: c.destination
  }

  /** `wait_any_for`, once the server has answered. */
  method FinishWaitAny(comms: seq<Comm>, ack: WaitAnyAck) returns (r: Result<int, ClientError>)
    requires -1 <= ack.finishedIndex < |comms|
    modifies Destinations(comms)
    ensures r.Err? <==> ack.finishedIndex >= 0 && comms[ack.finishedIndex].destination != null && ack.data == []
    ensures r.Ok? ==> r.value == ack.finishedIndex
    ensures forall d <- Destinations(comms) ::
              d.buffer == if r.Ok? && ack.finishedIndex >= 0 && d == comms[ack.finishedIndex].destination then Some(ack.data)
                          else old(d.buffer)
  {
    if ack.finishedIndex >= 0 {
      var comm := comms[ack.finishedIndex];
      if comm.destination != null {
        if |ack.data| == 0 {
          return Err(NoData);
        }
        comm.Deliver(ack.data);
      }
    }
    r := Ok(ack.finishedIndex);
  }

  /** The end of `wait_any_for`, from the request to the user's buffer. The index that the caller gets is
      that of the handle whose entry gave the data, and the data goes where this handle says and
      nowhere else. */
  method WaitAnyForEnd(server: RefcountStore, comms: seq<Comm>, finished: int) returns (r: Result<int, ClientError>)
    requires server.Valid() && -1 <= finished < |comms|
    requires finished >= 0 && comms[finished].remoteAddress in server.comms ==>
               comms[finished].remoteAddress in server.terminated
    modifies server, Destinations(comms)
    ensures server.Valid()
    ensures r.Ok? ==> r.value == finished
    ensures r.Err? <==>
              && finished >= 0
              && (comms[finished].remoteAddress !in old(server.comms) ||
                  (comms[finished].destination != null &&
                   Bytes(Data(old(server.store), comms[finished].remoteAddress)) == []))
    ensures finished >= 0 && comms[finished].remoteAddress in old(server.comms) ==>
              server.store == TakeData(old(server.store), comms[finished].remoteAddress)
    ensures forall d <- Destinations(comms) ::
              d.buffer == if r.Ok? && finished >= 0 && d == comms[finished].destination
                          then Some(Bytes(Data(old(server.store), comms[finished].remoteAddress)))
                          else old(d.buffer)
  {
    var addresses := BuildRequest(comms);
    hide StoreOk, Data, TakeData;
    var ack := server.CommWaitAnyForEnd(addresses, finished);
    if ack.Err? {
      return Err(ServerFailed(ack.error));
    }
    r := FinishWaitAny(comms, ack.value);
  }
}
