# Remote SimGrid coordination protocol

Remote SimGrid lets programs that run in processes of their own take part in a SimGrid simulation. A
server accepts their connections, registers them as actors, runs the simulation in a second thread, and
serves their requests one at a time. This project models the server, the client library and the bytes
between them, and proves what the design depends on.

SimGrid enters through a few assumptions: actors run one at a time and switch only at simcalls; each
runnable actor runs once per round; a new actor becomes runnable together with its creator; pids come
from a counter that the attached temporary actor has advanced to 2; objects that exist have different
addresses and are not freed while someone holds a reference; a payload is given to one reception. The
system's `send` and `recv` transfer any non-empty part of what they can, or report the end of the stream.

## Map of the project

| files | subject |
|---|---|
| `Wire.dfy`, `TcpSocket.dfy`, `Messages.dfy` | frames on a byte stream, partial transfers, the writer and the blocking reader |
| `BarelyConnected.dfy` | the incremental reader of the server, with its buffers |
| `Commands.dfy`, `StartRefinement.dfy` | the command machine, its invariant, and the specification that it refines |
| `InitialActors.dfy` | from the actor table to the first simulated actors |
| `Selector.dfy`, `Ledger.dfy`, `Settle.dfy`, `Sweep.dfy`, `Serve.dfy` | the command thread: event loop, first messages of clients, ownership of sockets, messages |
| `ServerRuns.dfy`, `TurnRuns.dfy`, `Announcements.dfy` | whole runs of the server, the loop as such a run, and what created actors are told |
| `Connection.dfy` | the client's end of a socket: requests, replies, think times |
| `CreationProtocol.dfy`, `CreationInvariant.dfy`, `CreationSteps.dfy`, `CreationTheorems.dfy`, `CreationRuns.dfy` | the three-party protocol that creates actors during a simulation |
| `CreationProjection.dfy` | runs of this protocol as runs of the server |
| `ObjectStore.dfy`, `StoreRuns.dfy`, `StoreExamples.dfy`, `RefcountStore.dfy`, `ClientComm.dfy` | remote objects: payloads, buffers, references, the clients' handles, and forks |
| `Wrappers.dfy` | option and result types |

Classes follow the program's classes. Where a class has much state (`Serve.Server`,
`RefcountStores.RefcountStore`) a ghost field holds the same state as one value together with its history.
Each method is proved to change this value by a function, and the lemmas about the function give the
invariant. The run theorems are about sequences of these functions, in any order the parties allow.

## Results worth knowing

* The writer does not check the size of a content, both readers do: a frame is read back if and only if
  its content is shorter than 16777216 bytes (`Wire.FrameRoundTrip`).
* A connection hook of `Actor::create` that runs after the connection (src/librsg/actor.cpp:24) may use the
  library, for instance to log. The SimGrid thread is then stuck for good, and it is stuck only then
  (`CreationTheorems.StuckExactlyAfterAHookRequest`); `CreationRuns.HookRequestBlocksEveryone` is a run in
  which nobody moves any more.
* Handles of clients and entries of the store agree, one to one, exactly as long as no process forks while it
  holds a handle (`StoreRuns.HandlesAgreeWithTheStore`). `Actor::fork` copies the handles without telling the
  server (src/librsg/actor.cpp:91-122), and each copy's destructor erases the entry. `StoreExamples.dfy` has the
  runs: a handle without entry, another process's entry erased at a reused address, and an actor that comes
  back from a wait to an entry that is gone, where the assertion of src/rsg/simulation.cpp:273 fails and where
  `wait_for` reads freed memory (src/rsg/simulation.cpp:203).
* The reference counts of the store never exceed 1, forks included: the branches that decrement one are dead
  (`ObjectStore.ReleaseKeepsOk`, `StoreRuns.ActionKeepsOk`).
* A client's `wait_for` or `wait_any_for` fails its assertion on the received data exactly when the data was
  taken before, for instance by a successful `test`, or when the payload is empty
  (`ClientComms.Comm.WaitForEnd`, `ClientComms.WaitAnyForEnd`; `StoreExamples.WaitAfterTestFails` and
  `StoreExamples.EmptyPayloadFails` are such runs).
* When the server leaves its loop, the sockets that stay open are exactly those on the SimGrid side: of actors
  that have not handed them back, failed ones included, or on their way back (`Serve.Server.Leave`,
  `Serve.Server.Iterate`; `ServerRuns.KillLeavesActorOpen` is such a run). The list that should name them is
  never filled. One case is closed before: when an actor fails because its client has gone, the blocking reader
  closes the descriptor (src/common/network/tcp_socket.cpp:77-83), which the next client may get.
* A refused CONNECT does not stop a client: it prints a message and goes on with the connection
  (`Connections.Connect`, src/librsg/connection.cpp:94-95).
* A thread made by `Actor::create` is connected before its server side first waits for it; only the child of
  a `fork` can make the SimGrid thread wait (`CreationTheorems.SpinStartsAfterIdIsOwned`).

## Model

| member | source | states |
|---|---|---|
| Wire.HeaderIsLittleEndian | src/common/message.hpp:40-43 | the size is the little-endian value of the four bytes |
| Wire.HeaderRoundTrip | src/common/message.hpp:24-27 | the four bytes written for a 32-bit size are read back as that size |
| Wire.HeaderDecodesOnce | src/common/message.hpp:40-43 | every four bytes are the header of exactly one 32-bit size |
| Wire.FrameRoundTrip | src/common/message.hpp:20-60 | a written frame followed by anything is read as its content, leaving the rest, if and only if the content is shorter than 2^24 bytes and parses; otherwise it is refused for that reason |
| Wire.FramesRoundTrip | src/common/message.hpp:20-60 | any sequence of such contents, empty ones included, is read back in order and leaves the rest of the stream |
| Wire.ReadFrameExtends | src/common/message.hpp:36-60 | bytes that come later change nothing in a frame, or a refusal, that was complete |
| Wire.IncompleteIsUndecided | src/rsg/serve.cpp:104-132 | the incremental reader goes on exactly as long as the blocking reader would still be waiting |
| Wire.ContentStep | src/rsg/serve.cpp:138-152 | a partial read of the content completes the frame exactly when it takes all that was missing |
| Wire.MissingShrinks | src/rsg/serve.cpp:381-412 | each partial read decreases the bytes that a frame can still miss, which never exceed 4 + 2^24 |
| TcpSockets.TcpSocket.Recv | src/common/network/tcp_socket.cpp:93-117 | writes a non-empty prefix of the stream inside the given part of the buffer; at the end of the stream the socket is closed and keeps its former descriptor |
| TcpSockets.TcpSocket.RecvAll | src/common/network/tcp_socket.cpp:64-91 | under every fragmentation, the buffer receives the next `size` bytes of the stream and no other is consumed, or the connection is lost when there are fewer |
| TcpSockets.TcpSocket.SendAll | src/common/network/tcp_socket.cpp:50-62 | under every fragmentation, exactly the bytes of the buffer are appended to what was sent, in order |
| TcpSockets.TcpSocket.Close | src/common/network/tcp_socket.cpp:136-148 | after a close, the former descriptor can still be asked for |
| Messages.WriteMessage | src/common/message.hpp:20-34 | appends exactly the frame of the content to what was sent; a content above the limit of the serialiser is refused and nothing is sent |
| Messages.ReadMessage | src/common/message.hpp:36-60 | is the reference reader of module Wire on the stream of the socket, result and remaining bytes alike |
| BarelyConnected.RemainingContentSizeIsExact | src/rsg/serve.cpp:139 | the wrapping unsigned expression is the true number of missing bytes, between 1 and the content size, for every size |
| BarelyConnected.ReceiveHeader | src/rsg/serve.cpp:107-117 | bytes of the header are stored inside the four-byte field, in order and none is lost, or the socket was closed at the end of the stream |
| BarelyConnected.ReceiveContent | src/rsg/serve.cpp:132-153 | bytes of the content are stored inside the allocated buffer; completion is recognised exactly |
| BarelyConnected.HandleBarelyConnectedSocketRead | src/rsg/serve.cpp:101-156 | checks the size once the header is complete and allocates the buffer then; one visit either consumes a non-empty part of the incomplete frame, or settles it as the blocking reader does and leaves the stream at the frame boundary |
| BarelyConnected.ReadUntilSettled | src/rsg/serve.cpp:381-412 | visits without advance end, and together they are the blocking reader: same content or refusal, same remaining stream |
| Commands.HandleCommandKeepsInv | src/rsg/serve.cpp:158-290 | counter and table agree, initial ids are 2 to n + 1, the simulation is started at most once and complete; the `connect_ack` assertion never fails |
| Commands.HandleCreateKeepsInv | src/rsg/serve.cpp:472-490 | a created actor enters the table if and only if its pid is new, and the invariant is kept |
| StartRefinement.KillIsFinal | src/rsg/serve.cpp:184-242 | KILL takes effect in every state, and no later history of commands registers, connects or starts anything |
| StartRefinement.RunRefines | src/rsg/serve.cpp:158-290 | every history of commands without KILL is accepted exactly when the specification accepts it, and ends in the state that the specification describes |
| StartRefinement.AckRefines | src/rsg/serve.cpp:193-197 | acknowledgements carry the new id, or the number of connected actors; only the socket of a CONNECT is kept |
| StartRefinement.KilledAnswers | src/rsg/serve.cpp:182-242 | after a KILL, registrations and connections are acknowledged as failures, START ends the server, and nothing changes |
| StartRefinement.RefusedExactly | src/rsg/serve.cpp:182-284 | which commands end the server, in which state, and with which error |
| StartRefinement.CountDecides | src/rsg/serve.cpp:206-276 | comparing the counter with the size of the table decides whether every registered actor is connected |
| StartRefinement.StartsExactlyWhenComplete | src/rsg/serve.cpp:200-276 | the server runs if and only if START was received and every registered actor is connected, and has then started the simulation once, with all sockets |
| StartRefinement.StartConfluence | src/rsg/serve.cpp:200-281 | after the registrations, START and the CONNECTs can arrive in any order: same acceptance, same final state, same socket for each actor |
| InitialActors.SortById | src/rsg/simulation.cpp:723-729 | a sorted permutation of the entries |
| InitialActors.SortedCoverIsRange | src/rsg/simulation.cpp:731-740 | a sorted sequence of n ids that covers n consecutive numbers is these numbers in order |
| InitialActors.ConnectionsUnorderedmapToVector | src/rsg/simulation.cpp:709-745 | for every map and iteration order, accepts if and only if the ids are exactly 2 to n + 1, and returns then the entries at their ranks; the first check fails exactly when the smallest id is not 2 |
| InitialActors.SpawnInitialActors | src/rsg/simulation.cpp:649-693 | nothing is spawned if and only if some requested host is unknown; otherwise the i-th entry gets the i-th pid |
| InitialActors.StartSimulation | src/rsg/simulation.cpp:560-569 | on a table keyed by ids 2 to n + 1 the check is never refused and each initial actor's pid is its registered id |
| Selectors.Selector.Add | src/common/network/selector.cpp:21-25 | the descriptor is registered and the bound used by `select` stays one |
| Selectors.Selector.Remove | src/common/network/selector.cpp:27-30 | only this descriptor leaves |
| Selectors.Selector.WaitAnyReadable | src/common/network/selector.cpp:38-49 | the snapshot is exactly the registered descriptors that are ready |
| Ledgers.SettleKeepsOk | src/rsg/serve.cpp:391-410 | after a command, the socket is in exactly one new place, the selector watches it if and only if it was dropped, and the invariant of the ledger holds |
| Ledgers.ReceiveKeepsOk | src/rsg/serve.cpp:445-496 | every message finds what it needs: the socket of a quit exists, the pid of a creation is new, the end is the last message; the invariant is kept |
| Ledgers.DeleteKeepsOk | src/rsg/serve.cpp:426-439 | a deleted socket existed, was in the list once, and leaves the list, the selector and the open descriptors |
| Ledgers.QuitKeepsOk | src/rsg/simulation.cpp:615-621 | a socket handed back by its actor is in one queued message and nowhere else |
| Ledgers.AbortKeepsOk | src/rsg/simulation.cpp:623-637 | the failure of an actor, or of the launch, keeps the ledger; if its client has gone, its descriptor is free for another client |
| Ledgers.EngineReturnsKeepsOk | src/rsg/simulation.cpp:695-703 | the message of a normal end keeps the ledger when every socket was handed back, which CreationProjection shows of the protocol |
| Ledgers.CleanEnd | src/rsg/serve.cpp:445-500 | when the server has seen a normal end, no socket is on the SimGrid side any more |
| Sweeping.SweepTurn | src/rsg/serve.cpp:417-440 | one turn over the dropped sockets erases at the current index, or moves it, and reaches the next socket |
| Sweeping.SweepKeepsOk | src/rsg/serve.cpp:414-441 | the traversal of dropped sockets keeps the ledger after every turn |
| Settling.SettledAnswers | src/rsg/serve.cpp:104-152 | the first content that a client has sent is parsed and obeyed as the command that it encodes; an empty, unparsable, oversized or unfinished one ends the server, each with its error |
| Settling.SettleAllAnswers | src/rsg/serve.cpp:381-412 | in a traversal each client is answered so, from the state that the one before has left, until the first that ends the server |
| Settling.SettleAllKeepsOk | src/rsg/serve.cpp:381-412 | the traversal of barely connected sockets keeps the ledger, for every order of visit |
| Serve.Server.HandleCommandFor | src/rsg/serve.cpp:158-290 | the statements of the command handler compute the command machine, whose table, acknowledgements, refusals and messages are pinned by StartRefinement and Announcements |
| Serve.Server.VisitSocket | src/rsg/serve.cpp:388-410 | a visit stores part of an incomplete message, or obeys the command that the client has sent, or stops with the error that its bytes deserve, and leaves the client's stream at the end of this frame |
| Serve.Server.VisitUntilSettled | src/rsg/serve.cpp:381-411 | the loop that stays on a socket ends; whatever the fragments, the command that the first frame of the client carries is obeyed and acknowledged, or its bytes end the server, and the stream is left at the end of this frame |
| Serve.Server.TraverseBarelyConnected | src/rsg/serve.cpp:379-412 | every readable socket is settled once, in order, by the command that its client has sent, and no other is touched; a crash comes from the first bad frame or refused command; `client_dropped` tells whether one was dropped |
| Serve.Server.TraverseDropped | src/rsg/serve.cpp:414-441 | deletes exactly the dropped sockets whose client has closed, and keeps the others in order |
| Serve.Server.HandleMessage | src/rsg/serve.cpp:445-496 | the oldest message, and no other, leaves the queue; an end or a failure ends the simulation with code 0 or 1, a socket handed back is dropped and watched, a created actor enters the table with the queue of its message and is acknowledged on the other one; the duplicate id assertion never fails |
| Serve.Server.Leave | src/rsg/serve.cpp:499-500 | the sockets left open are exactly those that an actor has not handed back, failed or not, unless its connection was lost; after a normal end there is none |
| Serve.Server.CloseOpenSockets | src/rsg/serve.cpp:35-76 | each barely connected or dropped socket is deleted, once |
| Serve.Server.Iterate | src/rsg/serve.cpp:336-497 | one turn of the loop: a signal ends it with code 1; otherwise a client is accepted and no other served, or else exactly the ready barely connected clients are answered, and then, unless one of them was dropped, exactly the ready dropped sockets whose client has closed leave the list, the open sockets and the selector; then the oldest message is handled; the invariant holds when the loop goes on |
| ServerRuns.SocketsAreConserved | src/rsg/serve.cpp:368-471 | in every state of every run an open socket has exactly one holder and a closed one none, no socket has two actors, and the selector watches the signals, the listener and the command thread's sockets |
| ServerRuns.ClosedForGood | src/rsg/serve.cpp:433-438 | a socket that was deleted, or closed by the blocking reader, is never used again |
| ServerRuns.EveryStartIsComplete | src/rsg/serve.cpp:206-276 | in every run, every table given to the simulation is keyed by ids 2 to n + 1 and has all sockets; there is one at most |
| ServerRuns.StartHandedTable | src/rsg/simulation.cpp:640-745 | so, in every run, the order check accepts the table for every iteration order, and each actor gets the pid of its registration unless a host is unknown |
| ServerRuns.KillLeavesActorOpen | src/rsg/serve.cpp:219-223 | a run that a KILL ends while the socket of an actor is open and out of reach of the clean-up |
| ServerRuns.NothingLostAtTheEnd | src/rsg/serve.cpp:445-500 | at a normal end no message is left, every actor was connected, and every socket is deleted or about to be by the final clean-up |
| TurnRuns.TurnIsRun | src/rsg/serve.cpp:336-497 | what a turn of the loop does is a sequence of the actions of the runs |
| TurnRuns.TracedTurn | src/rsg/serve.cpp:336-497 | a turn of the loop prolongs the run that led to it: what is proved of runs holds of the loop |
| Announcements.EachConnectionIsAnnouncedOnce | src/rsg/serve.cpp:253-270 | in every run, each actor created during the simulation has the queue that the message about its creation named for this; once connected, its socket was pushed there, exactly once, and nothing else was ever pushed |
| Connections.Connect | src/librsg/connection.cpp:70-99 | CONNECT is one frame, its acknowledgement is read whatever it says, and decisions begin where the handshake left both streams, with the think times of the environment; fails exactly for an unreadable acknowledgement, an oversized command or a bad think time |
| Connections.Connection.SendDecision | src/librsg/connection.cpp:134-153 | a request is one frame after those of all earlier requests, the encoding of the decision with a think time in seconds; the reply to the k-th request is the k-th message of the server's stream since the handshake; a request that cannot be sent changes nothing |
| Connections.Connection.ThinkTime | src/librsg/connection.cpp:138-145 | the seconds of the measured nanoseconds, or the constant; never negative, which the server would refuse (src/rsg/simulation.cpp:45-46) |
| Connections.Connection.Disconnect | src/librsg/connection.cpp:109-125 | a quit is written if the connection is up, nothing is read, and the socket is closed in any case |
| Connections.ReadFramesSnoc | src/common/message.hpp:36-60 | one more message extends what was read from the stream by exactly this message |
| CreationProtocol.AcksFor | src/rsg/simulation.cpp:599-613 | together, a decision's own acknowledgement and the one of the loop are exactly one, and none for a quit |
| CreationSteps.StepKeepsInv | src/rsg/simulation.cpp:65-107 | every step of every party keeps the invariant that ties the two phases of each actor, the table, the queues and the semaphores |
| CreationSteps.RunKeepsInv | src/rsg/simulation.cpp:560-638 | so does every run |
| CreationTheorems.NoAssertionFails | src/rsg/simulation.cpp:81-107 | with any number of concurrent creations, no reachable state violates an assertion of the protocol |
| CreationTheorems.Lockstep | src/librsg/connection.cpp:134-153 | the k-th acknowledgement of a client answers its k-th decision, a quit has none, and at most one decision is outstanding |
| CreationTheorems.MutualExclusion | src/rsg/simulation.cpp:596-613 | at most one client runs user code, connection hooks of created threads included, whether they use the library or not |
| CreationTheorems.ThreadNeverOverlapsCreator | src/librsg/actor.cpp:15-89 | a created thread never runs hooks or code while its creator runs user code |
| CreationTheorems.SpinStartsAfterIdIsOwned | src/rsg/simulation.cpp:573-579 | the SimGrid thread starts waiting for a child only when its creator's client owns the id and the command thread expects it |
| CreationTheorems.ConnectSpinEnds | src/rsg/interthread_messaging.cpp:50-63 | that wait ends without the SimGrid thread, by at most two steps of the client and the command thread |
| CreationTheorems.CreateSpinEnds | src/rsg/simulation.cpp:92-98 | the wait for the command thread ends by steps of the command thread alone |
| CreationTheorems.StuckExactlyAfterAHookRequest | src/librsg/actor.cpp:15-89 | the SimGrid thread, with work left, never moves again whatever the others do, if and only if the second hook of some created thread has made a request |
| CreationTheorems.SimGridCanMove | src/rsg/simulation.cpp:573-638 | otherwise, from every state, finitely many steps of clients and command thread, none by a hook's request, let it move |
| CreationTheorems.NoDeadlock | src/rsg/simulation.cpp:573-592 | in every state before the end that is reached without such a request, some party can move |
| CreationRuns.HookRequestBlocksEveryone | src/librsg/actor.cpp:24-83 | a run with one creation whose hook makes a request, of any kind, after which no party can move |
| CreationTheorems.NothingLost | src/rsg/simulation.cpp:615-703 | at the end the queue is empty and the socket of every actor was handed back once |
| CreationProjection.ProtocolRunsAreServerRuns | src/rsg/simulation.cpp:65-107 | whatever the server did before the command that starts the simulation, every run of the protocol is, for the command thread, a run of the server: pids are new, no message or CONNECT is refused, the engine returns when every socket was handed back, and a created actor was told of its connection exactly when its socket was pushed on its own queue |
| CreationProjection.OthersKeepProjection | src/rsg/serve.cpp:158-290 | other clients that come, send any command but KILL, and go do not disturb this correspondence |
| CreationProjection.FinishedProtocolLosesNothing | src/rsg/simulation.cpp:615-703 | a run of the protocol that ends makes the server return 0 with no message left, every actor connected and no socket on the SimGrid side, with nothing assumed of the engine |
| CreationProjection.OneActorRunsAndQuits | src/rsg/simulation.cpp:560-703 | a run of both: one actor registers, connects, runs and quits, and the simulation ends |
| ObjectStore.TakeDataKeepsOk | src/rsg/simulation.cpp:203-209 | the buffer of a communication that is over points to a payload that exists and is the one sent; taking it keeps the invariant of the store |
| ObjectStore.AddCommKeepsOk | src/rsg/simulation.cpp:346-351 | the address of a new communication is in no map of the store |
| ObjectStore.ReleaseKeepsOk | src/rsg/simulation.cpp:176-191 | a release, whoever makes it, erases the entry with its one reference and keeps the invariant |
| StoreRuns.ActionKeepsOk | src/rsg/simulation.cpp:176-485 | every part of a decision between two simcalls, and every step of SimGrid, keeps the invariant of the store, forks and releases during a wait included |
| StoreRuns.PayloadsAreDeliveredOnceAndIntact | src/rsg/simulation.cpp:192-385 | in every interleaving what is acknowledged as a payload are the bytes that some put has given for it, at most once; memory holds these bytes until then, and only until then |
| StoreRuns.DataComesFromItsSender | src/rsg/simulation.cpp:203-209 | what a wait or a test on a reception hands over was put by the sender whose transfer ended in the buffer of this reception |
| StoreRuns.HandlesAgreeWithTheStore | src/librsg/actor.cpp:91-122 | in every interleaving, handles and entries correspond one to one throughout if and only if no process forks while it holds a handle |
| StoreRuns.ReferencesAreHandles | src/rsg/simulation.cpp:343-485 | then the store holds one reference on an address exactly when some client has a handle on it |
| StoreRuns.WaitersAlwaysHold | src/librsg/comm.cpp:28-40 | in every interleaving a blocked client holds a handle on what it waits for |
| StoreRuns.NothingBreaksWithoutCopies | src/rsg/simulation.cpp:201-284 | as long as no process forks with a handle, a blocked actor's communication stays in the store: no look-up after a wait fails and no erased entry is read |
| StoreExamples.DeliveryHappens | src/rsg/simulation.cpp:201-217 | a run of six actions in which the bytes of a put, any number of them, are handed over by a wait |
| StoreExamples.WaitAfterTestFails | src/librsg/comm.cpp:43-52 | a run in which a wait after a successful test fails the assertion on data |
| StoreExamples.EmptyPayloadFails | src/librsg/comm.cpp:43-52 | a run in which a wait for an empty payload does |
| StoreExamples.DanglingHandle | src/librsg/comm.cpp:12-21 | a fork after which the parent's handle has no entry |
| StoreExamples.ReusedAddress | src/librsg/comm.cpp:12-21 | the same, until the parent's destructor erases the entry of another process |
| StoreExamples.ErasedWaitedEntry | src/rsg/simulation.cpp:265-283 | a fork after which an actor comes back from a wait to an entry that its child has erased |
| StoreRuns.TakenOnce | src/rsg/simulation.cpp:203-209 | the first wait or test that finds a reception over acknowledges exactly the payload in its buffer, and no later step can take it again |
| StoreRuns.EmptiedForGood | src/rsg/simulation.cpp:242-284 | a communication whose buffer was emptied yields no data as long as nobody releases it |
| RefcountStores.RefcountStore.CommRefcountDecrease | src/rsg/simulation.cpp:176-191 | fails on an unknown address, otherwise erases exactly this entry |
| RefcountStores.RefcountStore.CommTest | src/rsg/simulation.cpp:231-251 | data is taken exactly when the communication is over |
| RefcountStores.RefcountStore.CommWaitForEnd | src/rsg/simulation.cpp:201-217 | data, timeout or failure according to how SimGrid ended the wait; an entry erased meanwhile is told apart |
| RefcountStores.RefcountStore.CommWaitAnyForStart | src/rsg/simulation.cpp:256-263 | the vector given to SimGrid is the request in order, or an address of the request is unknown |
| RefcountStores.RefcountStore.CommWaitAnyForEnd | src/rsg/simulation.cpp:265-283 | the data acknowledged is that of the communication that the index names; the assertion on the second look-up fails exactly when this entry was erased during the wait |
| RefcountStores.RefcountStore.MailboxPutAsync | src/rsg/simulation.cpp:335-356 | memory holds a copy of the bytes that were put, a new entry without a buffer is inserted, and nothing else changes |
| RefcountStores.RefcountStore.MailboxGetEnd | src/rsg/simulation.cpp:357-366 | the acknowledgement carries the bytes that were put, and the payload is freed afterwards |
| RefcountStores.RefcountStore.MailboxGetAsync | src/rsg/simulation.cpp:367-385 | a new entry with its own empty buffer; the assertion on existing entries never fails |
| ClientComms.Comm.Test | src/librsg/comm.cpp:66-88 | data is written to the destination of this handle exactly when the reception ended and gave some |
| ClientComms.Comm.WaitForEnd | src/librsg/comm.cpp:28-52 | the assertion on data fails if and only if the reception was emptied before or the payload is empty; otherwise the destination holds the payload |
| ClientComms.BuildRequest | src/librsg/comm.cpp:101-108 | the addresses of the request are those of the handles, in order |
| ClientComms.WaitAnyForEnd | src/librsg/comm.cpp:95-131 | the index returned names the handle whose entry gave the data; the data is written to this handle's destination and to no other; fails exactly for an erased entry or missing data |

## Left out

- Messages.WriteMessage: the header is copied before the size is refused; for a refused content whose size wraps to less than a header, the model does not say where the four bytes go.
- Serve.Server.VisitUntilSettled: a client that stays silent in the middle of a message blocks the server for good; the model gives every client a finite stream that ends.
- Serve.Server.Iterate: the loop itself may run forever; it is modelled one turn at a time, with the timeout of `select` as a turn in which nothing is ready.
- ServerRuns.NothingLostAtTheEnd: the runs of the server take new pids and an idle engine from SimGrid, in any order; CreationProjection.ProtocolRunsAreServerRuns derives both for the runs of the protocol, in which no actor fails and no KILL comes.
- CreationTheorems.MutualExclusion: user code of initial and forked clients before their first acknowledgement is not covered; it runs concurrently by design.
- CreationTheorems.NoDeadlock: says that some party can move, not that the scheduler is fair to it.
- CreationTheorems.StuckExactlyAfterAHookRequest: a hook that disconnects is not modelled, nor are a hook before the connection that uses the library (there is no connection then) and a thread whose connection fails, after which `actor_wrapper` posts the semaphore and rethrows.
- Wrap-around of actor ids and of the connected counter after 2^31 registrations, and `FD_SETSIZE`.
- Protobuf: contents are opaque bytes, with a predicate for those that parse. The header is little-endian.
- Errors of `send`, `recv` and `close` other than the end of the stream.
- The buffers of the event loop are byte sequences in `Serve.dfy`; the arrays behind them are in `BarelyConnected.dfy`, under the same relation `Wire.ReadStep`.
- Entries of the actor table are values: two pointers to the same entry are not distinguished. Hash maps give their elements in an arbitrary order; the sort is an insertion sort.
- Queues are FIFO sequences without a bound; memory ordering, iterator invalidation and the `shutdown` calls are not modelled.
- Sockets are named by numbers that are never used again; descriptors are reused freely.
- `kCommCancel` starts a communication and `kMutexTryLock` reads the field of another decision; nothing is claimed about them. Mutex and condition variable semantics, joins, sleeps and time belong to SimGrid; in the creation protocol they are blocking simcalls.
- Connections.Connection.SendDecision: after a reply of a bad size or content the two streams are out of step, and the model says no more about them.
- StoreRuns.HandlesAgreeWithTheStore: threads of one process share its handles; a handle that the child of a fork never destroys, or a process that dies with handles, leaves entries behind, which the model allows and says nothing about.
- The environment of clients, the join of child threads, signals beyond the end of the loop, and the command line.
