# KanchoNet in Dafny

KanchoNet is a C++ server network engine. Every client session has an outgoing ring buffer, a flag
`mIsSending` and a spin lock; `Send` fills the ring from any thread, and a network model empties it into
the socket, either by overlapped sends that complete (`IOCPModel`) or whenever epoll reports the socket
writable (`EpollModel`). Around this pipeline stand the session table, the socket map of the epoll model,
the I/O contexts of the IOCP model and the engine's lifecycle. This project models that core and proves
what it promises, for every run and every interleaving.

Four layers are connected by proofs:

1. **Classes in the form of the source.** `RingBuffer`, `PacketBuffer`, `Session`, `SessionManager`,
   `EpollModel`, `IOCPModel` and `NetworkEngine` are Dafny classes whose methods have the branches and loops of
   the C++ ones and change their fields step by step. The two network models work on the same `Session`
   objects, rings and manager.
2. **State machines.** `SendMachine` (completion-driven sends), `EpollMachine` (readiness-driven sends),
   `EpollTable` (sessions, their states, descriptors and callbacks), `IocpContexts` (I/O contexts, client
   sockets and callbacks, with any number of workers), `SessionTable` (ids) and `Growth` (vector growth) say
   what the functions do to small mathematical states. The operating system takes part as steps that may
   happen (a completion of any size, a refusal, a failing call), so results hold whatever it does.
   `EpollServer` and `IocpServer` put tables and send paths together: a whole model with any number of
   sessions, whose events leave the other sessions alone. `Valid()` of the class `EpollModel`, and of
   `IOCPModel`, says that its fields, and every session there has been, are what a run of such events has
   led to. Initialising a model establishes it and its operations keep it, so that all results about runs hold
   of the classes.
3. **Threads.** `SpinLock` is the lock as single atomic accesses. `Threads` is the send path with any
   number of threads, one shared access at a time, and is proved to simulate `SendMachine`. `IocpContexts`
   has the handling of a completion as several steps, between which other workers can come;
   ProcessDisconnect, and a Receive callback with the post after it, are one step each.
4. **One abstract channel.** `Fifo` says what a user may expect: a bounded first-in first-out channel.
   Both backends, and the threaded machine, are proved to be runs of it.

| file | content |
|---|---|
| `Types.dfy`, `Callbacks.dfy`, `Counting.dfy` | bytes, `size_t` as a 64-bit range checked at every expression, constants; callback histories; sizes of sets and sums over maps |
| `RingBuffer.dfy` | `Circle`: segments of a circle of cells; `RingBuffers`: the class; `ZeroCopy`: the direct-access interface |
| `Fifo.dfy` | the abstract channel |
| `SendMachine.dfy`, `SendProperties.dfy` | the completion-driven send path, call by call |
| `SpinLock.dfy`, `Threads.dfy`, `ThreadProperties.dfy` | the lock, and the same path access by access |
| `ThreadProgress.dfy` | that the threads always have something to do, and come to an end |
| `EpollMachine.dfy` | the readiness-driven send path |
| `Session.dfy`, `SessionGroup.dfy` | the session class, and many sessions at once |
| `SessionManager.dfy` | ids and the session container |
| `EpollTable.dfy`, `EpollServer.dfy`, `EpollModel.dfy` | sessions, descriptors and callbacks; all of it with the send paths; the epoll model class |
| `IocpContexts.dfy`, `IocpProperties.dfy`, `IocpSockets.dfy`, `IocpCallbacks.dfy` | I/O contexts, client sockets and callbacks, with any number of workers |
| `IocpWaiting.dfy` | how long connections, and the bytes of a session, are waited for |
| `IocpCalls.dfy`, `IocpHistories.dfy` | the same when calls do not disturb each other |
| `IocpServer.dfy`, `IocpSummary.dfy`, `IocpModel.dfy` | all of it with the send paths; what of it can be seen; the IOCP model class |
| `PacketBuffer.dfy` | the packet buffer, and the cost of its growth over runs of appends |
| `NetworkEngine.dfy` | the engine's lifecycle |

`dafny verify dfyconfig.toml` checks the whole project.

## What the code does not do

Some promises one would expect are false of the code. Each is proved in its exact form:

- **A `Send` that returns false may have queued part of its buffer.** The prefix that fits stays in the ring
  (`SendProperties.SendResult`).
- **A session can stall for good.** A `Send` that overflows while nothing is being sent leaves the ring full
  and posts nothing. From then on every `Send` returns false, whatever happens
  (`SendProperties.StallIsForever`), and a session is beyond help exactly when it is in that state
  (`SendProperties.StalledIffDead`). Coming to be idle with data queued takes such an overflow or a failed
  post (`SendProperties.IdleWithDataEntry`).
- **An epoll session can die the same way, and by one failed `epoll_ctl`.** `Send` sets `mIsSending` before it
  asks for writability; when that call fails, no later `Send` asks again. A connected session is beyond help
  exactly when the socket is not watched for writing and either a send is marked as under way or the ring
  is full (`EpollMachine.DeadIffStuck`). It gets there exactly by an overflow or a failed arming while it is
  idle and not watched (`EpollMachine.DeathOf`); one that is still watched, because an earlier withdrawal of
  interest failed, survives both. When flag and mask agree after each call is stated exactly
  (`EpollMachine.SendAgreement`, `EpollMachine.LoopAgreement`), and after a failed withdrawal the next `Send`
  that fits makes them agree again (`EpollMachine.WithdrawalRepaired`). That is of the mask only: descriptors
  are registered edge-triggered, so unless its own `epoll_ctl` succeeds that `Send` asks for no new edge.
- **"One receive and one send for each session" is not true of all allocated I/O contexts.** A worker posts the
  next operation before it frees the context of the last, and other workers may be faster: two accepts are
  live after three steps (`IocpCallbacks.AcceptsOverlap`), and two receives of a session after every delivery
  (`IocpCallbacks.ReceivesOverlap`). It is true of the contexts whose handling has not got to the next post
  (`IocpProperties.ContextsConserved`).
- **`IOCPModel` loses sockets.** It never closes the socket of a disconnected session, nor that of an accept
  completion taken for an error, and `Shutdown` forgets that of the accept still out. Exactly by these an open
  socket is lost (`IocpSockets.LostExactly`); lost ones stay open for good, also beyond `Shutdown`
  (`IocpSockets.LostForever`), and what is open after `Shutdown` is exactly what was lost or waited for a
  connection: every socket of a session in the manager is closed (`IocpSockets.ShutdownCloses`). The calls of
  close add up to the sockets made if and only if as many are lost as sessions had theirs closed twice
  (`IocpSockets.ShutdownBalance`).
- **`Shutdown` of `IOCPModel` leaks the contexts the kernel has**: they are counted apart in
  `IocpProperties.ContextsConserved`.
- **The Accept callback of `IOCPModel` need not come first**, since the session's receive is posted before it.
  When a completion of a receive makes a callback, the Accept callback has been made if and only if no worker
  is still about to make it (`IocpCallbacks.AcceptComesFirstUnless`); a run from the start in which it has not is
  `IocpCallbacks.AcceptCanComeLate`. Nor need the Disconnect callback be the last
  (`IocpCallbacks.ReceiveCanComeAfterDisconnect`). With calls that do not disturb each other, as with one worker,
  every history is Accept Receive* Disconnect? (`IocpHistories.HistoriesAreLegal`). All this assumes accept
  completions that carry data. `AcceptEx` is called with a receive length of 0, and completions without data
  are dropped: as long as they are, there is no session and no callback at all
  (`IocpCallbacks.NoAcceptNoSession`).
- **`IOCPModel` can stop accepting for good.** A server that was started waits for connections until an accept
  completion fails or carries no data, or the next accept is refused, and from then on never again: nothing
  registers another accept, and `StartListen` does nothing while the model runs (`IocpWaiting.ListeningEnds`). As
  `AcceptEx` asks for no data, the first connection that comes does this. In the same way a session's bytes are
  waited for until a receive brings nothing or the next is refused, and then never again
  (`IocpWaiting.HearingEnds`).
- **A send that fails is never made up for.** Its session is disconnected, and of what is queued, or queued
  later by callers that still have the session, nothing gets on the wire (`IocpServer.FailureCuts`,
  `IocpServer.CutIsForever`).
- **Descriptors are closed twice.** A session whose registration failed stays in the manager, and `Shutdown`
  closes its descriptor again; closes equal accepts if and only if there was no such session
  (`EpollTable.ShutdownBalance`).
- **`Stop` does nothing for an engine that is initialised but not running**, so that its resources stay taken
  (`NetworkEngines.NetworkEngine.Stop`).
- **Ids are only good for 2^64 - 1 additions**: after that the counter hands out 0
  (`SessionTable.IdsGoodUntilWrap`).

## Model

| member | source | states |
|---|---|---|
| `Circle.SegmentAt` | KanchoNet/Buffer/RingBuffer.cpp:86-113 | byte i of what is readable is cell (read position + i) modulo the number of cells, so the split at the end of the array is invisible |
| `Circle.OverlayKeepsSegment` | KanchoNet/Buffer/RingBuffer.cpp:59-71 | a write that leaves one cell free changes no unread byte, and is found again from the write position on |
| `Circle.AppendInPlace` | KanchoNet/Buffer/RingBuffer.cpp:59-73 | such a write appends to what is readable, for every position of the wrap |
| `Circle.OverlayInTwo` | KanchoNet/Buffer/RingBuffer.cpp:66-71 | the two copies of a write that goes round the end are one cyclic write |
| `Circle.TwoWriteRounds` | KanchoNet/Buffer/RingBuffer.cpp:140-164 | two contiguous rounds use up all the free space at every wrap position, and a round is empty only when nothing is free |
| `Circle.TwoReadRounds` | KanchoNet/Buffer/RingBuffer.cpp:128-176 | two contiguous rounds read everything at every wrap position, and a round is empty only when there is nothing |
| `RingBuffers.RingBuffer.constructor` | KanchoNet/Buffer/RingBuffer.cpp:6-12 | a fresh ring is empty and holds exactly the number of bytes asked for; one more cell is allocated |
| `RingBuffers.RingBuffer.GetAvailableRead` | KanchoNet/Buffer/RingBuffer.cpp:128-138 | the number of readable bytes, never more than the capacity asked for |
| `RingBuffers.RingBuffer.GetAvailableWrite` | KanchoNet/Buffer/RingBuffer.cpp:140-143 | readable and writable bytes together are always the capacity asked for |
| `RingBuffers.RingBuffer.IsEmpty` | KanchoNet/Buffer/RingBuffer.h:51 | equal positions mean nothing is readable, never that the ring is full |
| `RingBuffers.RingBuffer.IsFull` | KanchoNet/Buffer/RingBuffer.h:52 | full exactly when the capacity asked for is used up |
| `RingBuffers.RingBuffer.GetContiguousWriteSize` | KanchoNet/Buffer/RingBuffer.cpp:151-164 | that many free cells follow the write pointer inside the array; zero only when nothing is free |
| `RingBuffers.RingBuffer.GetContiguousReadSize` | KanchoNet/Buffer/RingBuffer.cpp:166-176 | the cells at the read pointer are the oldest readable bytes; zero only when nothing is readable |
| `RingBuffers.RingBuffer.Store` | KanchoNet/Buffer/RingBuffer.cpp:57-73 | in one copy or two, the array becomes the cyclic write of the source bytes at the write position |
| `RingBuffers.RingBuffer.Write` | KanchoNet/Buffer/RingBuffer.cpp:45-74 | takes exactly the prefix that fits, behind all unread bytes, which are untouched; a null pointer or size 0 is no operation; what was written is what was consumed and what is readable |
| `RingBuffers.RingBuffer.Fetch` | KanchoNet/Buffer/RingBuffer.cpp:98-112 | in one copy or two, the destination gets the oldest bytes and keeps the rest of its own |
| `RingBuffers.RingBuffer.Peek` | KanchoNet/Buffer/RingBuffer.cpp:86-113 | copies the oldest bytes, as many as there are and are asked for, and changes nothing in the ring |
| `RingBuffers.RingBuffer.Read` | KanchoNet/Buffer/RingBuffer.cpp:76-84 | hands over and removes exactly the oldest bytes |
| `RingBuffers.RingBuffer.Skip` | KanchoNet/Buffer/RingBuffer.cpp:115-126 | removes exactly the oldest bytes, clamped to what there is |
| `RingBuffers.RingBuffer.Clear` | KanchoNet/Buffer/RingBuffer.cpp:145-149 | everything readable counts as consumed and the ring is empty |
| `RingBuffers.RingBuffer.CommitWrite` | KanchoNet/Buffer/RingBuffer.cpp:178-183 | the bytes lying ahead of the write position, clamped to the free space, become readable behind the others |
| `RingBuffers.RingBuffer.CommitRead` | KanchoNet/Buffer/RingBuffer.cpp:185-190 | removes the oldest bytes, clamped to what there is, as Skip does |
| `ZeroCopy.FillAndCommit` | KanchoNet/Buffer/RingBuffer.h:58-63 | filling at the write pointer and committing appends the same bytes as Write, and leaves the positions where Write would |
| `ZeroCopy.WriteInPlace` | KanchoNet/Buffer/RingBuffer.h:58-63 | two fill-and-commit rounds take exactly what one Write would take |
| `ZeroCopy.DrainInPlace` | KanchoNet/Buffer/RingBuffer.h:59-63 | two read-in-place rounds hand over all readable bytes in order and empty the ring |
| `Fifo.RunsOnlyGrow` | KanchoNet/Network/IOCPModel.cpp:199-224 | over any run of the channel, what was on the wire at one moment is a prefix of what is accepted at every later one, and neither ever shrinks |
| `SendMachine.PostSendKeeps` | KanchoNet/Network/IOCPModel.cpp:484-526 | PostSend changes no byte of the ring or history; afterwards the flag is up exactly when there was something to send and the kernel took it |
| `SendMachine.PostSendInv` | KanchoNet/Network/IOCPModel.cpp:484-526 | posting from a state with no send out gives one context, holding the front of the ring |
| `SendMachine.StepInv` | KanchoNet/Network/IOCPModel.cpp:199-224 | the pipeline invariant (conservation, one context whose buffer is the front of the ring, flag and context agree, wire is what was skipped and the part sent) holds after every Send, completion, dequeue and ProcessSend |
| `SendProperties.RunInv` | KanchoNet/Network/IOCPModel.cpp:401-423 | the invariant holds after every run |
| `SendProperties.InvIsSound` | KanchoNet/Network/IOCPModel.cpp:401-423 | the wire is a prefix of what was accepted, with no more than the capacity in between |
| `SendProperties.StepEffect` | KanchoNet/Network/IOCPModel.cpp:199-224 | only Send extends what is accepted, by the prefix that fits; only a completion extends the wire, by what it reports |
| `SendProperties.StepRefinesChannel` | KanchoNet/Network/IOCPModel.cpp:401-423 | each step is a step of the first-in first-out channel |
| `SendProperties.TraceIsChannelRun` | KanchoNet/Network/IOCPModel.cpp:199-224 | every run of the completion-driven backend is, state by state, a run of the channel |
| `SendProperties.SendResult` | KanchoNet/Network/IOCPModel.cpp:201-223 | Send succeeds if and only if the buffer is not empty, fits, and the send it may have to start is accepted; either way exactly the prefix that fits was queued |
| `SendProperties.SendIsContiguous` | KanchoNet/Network/IOCPModel.cpp:206-214 | the bytes of a Send that all fit lie next to each other in the stream, behind those of all earlier calls |
| `SendProperties.OneContext` | KanchoNet/Network/IOCPModel.cpp:216-223 | the flag is up exactly when one context is out, there are never two, and its buffer is still the front of the ring |
| `SendProperties.ContextBuffers` | KanchoNet/Network/IOCPModel.cpp:493-502 | a context is made with the first 8192 queued bytes, or all if fewer, and its buffer never changes |
| `SendProperties.CleanRun` | KanchoNet/Network/IOCPModel.cpp:199-224 | without failing posts and without buffers larger than the ring, no run records a failed post or an oversized buffer |
| `SendProperties.NoWakeUpIsLost` | KanchoNet/Network/IOCPModel.cpp:199-224 | then, after every run, the session is idle if and only if its ring is empty, and a Send to an idle session succeeds |
| `SendProperties.IdleWithDataEntry` | KanchoNet/Network/IOCPModel.cpp:208-223 | a step leads into being idle with data queued if and only if it is an overflow while idle, or a refused post with data left |
| `SendProperties.IdleOverflowStalls` | KanchoNet/Network/IOCPModel.cpp:209-214 | an overflow while idle leaves the ring full with nothing under way, and returns false |
| `SendProperties.StallIsForever` | KanchoNet/Network/IOCPModel.cpp:208-223 | from there, over any run, nothing is accepted or transmitted and every Send returns false |
| `SendProperties.StalledIffDead` | KanchoNet/Network/IOCPModel.cpp:208-223 | a session can be brought to transmit another byte if and only if it is not stalled |
| `SendProperties.QuietStep` | KanchoNet/Network/IOCPModel.cpp:401-423 | each event of a session nobody sends on reduces the work left |
| `SendProperties.DrainBound` | KanchoNet/Network/IOCPModel.cpp:401-423 | with no more Sends and no refusals, a run has at most one completion for each unsent byte, however the kernel cuts the sends up |
| `SendProperties.DrainedOrNotDone` | KanchoNet/Network/IOCPModel.cpp:411-422 | a session that is draining is either idle with everything on the wire or has a next event |
| `SendProperties.QuietRunsEndDrained` | KanchoNet/Network/IOCPModel.cpp:401-423 | a run that nothing can follow ends with the ring empty, the flag down and the wire equal to what was accepted |
| `SpinLock.StepInv` | KanchoNet/Utils/SpinLock.h:32-59 | exchange, load, try_lock and guarded unlock keep: the flag is set if and only if some thread holds the lock, and never two do |
| `SpinLock.MutualExclusion` | KanchoNet/Utils/SpinLock.h:32-82 | in every state any number of threads reach, the flag is set if and only if exactly one thread is in its critical section |
| `SpinLock.WaiterGetsIn` | KanchoNet/Utils/SpinLock.h:32-47 | a thread that finds the lock free has it after its exchange, with at most its call or one load before it, when it runs alone |
| `SpinLock.FreeLockIsTaken` | KanchoNet/Utils/SpinLock.h:32-47 | in every reachable state in which no thread holds the lock, every thread, calling, spinning or about to exchange, can get it like that, and then is the only holder |
| `SpinLock.NextExchange` | KanchoNet/Utils/SpinLock.h:34-46 | a thread that has failed only reads: its next exchange comes after a load that found the flag down |
| `SpinLock.TryLockResult` | KanchoNet/Utils/SpinLock.h:56-59 | in every reachable state try_lock gets the lock if and only if no thread holds it |
| `Threads.TheHolder` | KanchoNet/Utils/SpinLock.h:74-82 | the thread in the critical section whose call has not taken effect is the one working on the session |
| `Threads.SpinInv` | KanchoNet/Utils/SpinLock.h:34-46 | a failed exchange or an inner load changes nothing but the thread's place in the lock |
| `Threads.AcquireInv` | KanchoNet/Utils/SpinLock.h:34 | the exchange that succeeds begins a call on the session as the last holder left it |
| `Threads.KeepsOpen` | KanchoNet/Network/IOCPModel.cpp:199-224 | an access in the middle of a call is invisible to the call-by-call view |
| `Threads.CallEffect` | KanchoNet/Network/IOCPModel.cpp:199-224 | a call logs itself once if it is a Send, and leaves every context but its own alone |
| `Threads.ClosesHistory` | KanchoNet/Network/IOCPModel.cpp:206-223 | the access by which a Send takes effect records it in its turn, with what it returns; true only if its whole buffer was taken |
| `Threads.Closes` | KanchoNet/Network/IOCPModel.cpp:199-224 | the access by which a call takes effect does to the session what the whole call does |
| `Threads.StepSimulates` | KanchoNet/Network/IOCPModel.cpp:199-224 | every single access of any thread, and every kernel step, is a step of the call-by-call machine or invisible to it; a Send returns there what it returns here |
| `ThreadProperties.RunsAreAtomic` | KanchoNet/Network/IOCPModel.cpp:199-224 | every interleaved run is a run of whole calls, in the order they take effect |
| `ThreadProperties.ThreadsAreAChannel` | KanchoNet/Network/IOCPModel.cpp:199-224 | every interleaved run is a run of the first-in first-out channel |
| `ThreadProperties.NothingIsLost` | KanchoNet/Network/IOCPModel.cpp:401-423 | in every reachable state, also in the middle of a call: accepted bytes are those skipped followed by the ring, and what the Sends put in one after the other; the wire is a prefix of them; one thread at most is in a call |
| `ThreadProperties.MidCallLog` | KanchoNet/Network/IOCPModel.cpp:206-223 | the calls logged so far are the first of those that got the lock, and all whose result is known are among them |
| `ThreadProperties.SendsInLockOrder` | KanchoNet/Network/IOCPModel.cpp:206-214 | in every reachable state, also in the middle of a call: the Sends stand in the stream in the order in which they took the lock, one that returned true was taken entirely, and one taken entirely is contiguous |
| `ThreadProperties.OneSendAtATime` | KanchoNet/Network/IOCPModel.cpp:216-223 | whenever the lock is free, the flag is up exactly when one context is out, and its buffer is the front of the ring |
| `ThreadProperties.NothingFailedRun` | KanchoNet/Network/IOCPModel.cpp:199-224 | no interleaving of clean calls records a failed post or an oversized buffer |
| `ThreadProperties.NoWakeUpIsLost` | KanchoNet/Network/IOCPModel.cpp:199-224 | with clean calls, whenever the lock is free the session is idle if and only if its ring is empty |
| `ThreadProperties.StallIsForever` | KanchoNet/Network/IOCPModel.cpp:208-223 | a stalled session accepts and transmits nothing whatever the threads do; also calls already waiting for the lock return false |
| `ThreadProgress.AdvancingReduces` | KanchoNet/Network/IOCPModel.cpp:199-224 | every access or kernel event but a new Send and a failed try for the lock leaves less to do, by a measure of queued bytes, calls and contexts |
| `ThreadProgress.NeverStuck` | KanchoNet/Network/IOCPModel.cpp:199-224 | in every reachable state with a thread in a call, or with a send out and threads there, such an event can happen, and leaves less to do |
| `ThreadProgress.AdvancingRunsEnd` | KanchoNet/Network/IOCPModel.cpp:199-224 | a run of such events is no longer than that measure, and when none can go on every call has returned and no send is out |
| `ThreadProgress.WaiterGetsIn` | KanchoNet/Utils/SpinLock.h:34-46 | a waiting thread that runs alone while the lock is free holds it after at most two accesses, and finds the session as it is |
| `EpollMachine.SendInv` | KanchoNet/Network/EpollModel.cpp:182-207 | Send conserves bytes and, with epoll_ctl working, flag and writability interest agree |
| `EpollMachine.SendResult` | KanchoNet/Network/EpollModel.cpp:184-206 | Send returns true if and only if the buffer is not empty and fits entirely; either way exactly the prefix that fits is queued, logged and accepted, and nothing is transmitted |
| `EpollMachine.ProcessSendExits` | KanchoNet/Network/EpollModel.cpp:372-426 | the loop ends in exactly one of three ways: to be disconnected with data left, empty and idle with interest withdrawn if and only if epoll_ctl succeeds, or as before but for the bytes sent; nothing accepted is lost |
| `EpollMachine.LoopSends` | KanchoNet/Network/EpollModel.cpp:382-425 | for all answers of send: exactly the bytes the system takes leave the ring, oldest first, and the rest stays; the loop ends in a disconnect if and only if bytes are left and the first answer that takes none is 0 or an error, not EAGAIN |
| `EpollMachine.ProcessSendResult` | KanchoNet/Network/EpollModel.cpp:372-426 | the same of ProcessSend: the session is disconnected exactly then |
| `EpollMachine.TotalIsSum` | KanchoNet/Network/EpollModel.cpp:398-403 | answers the system may give add up to what leaves the ring |
| `EpollMachine.OneSend` | KanchoNet/Network/EpollModel.cpp:398-417 | after a partial send of n bytes the ring holds all but its first n, n bytes are transmitted, and flag and interest stay; a complete one lowers the flag |
| `EpollMachine.StepInv` | KanchoNet/Network/EpollModel.cpp:182-207 | over all steps, what has left the ring is what the system took; while mapped and with every epoll_ctl succeeding, mIsSending holds if and only if EPOLLOUT is asked for |
| `EpollMachine.StepRefinesChannel` | KanchoNet/Network/EpollModel.cpp:372-426 | each step is a step of the same channel as the other backend's, the wire being what the system took |
| `EpollMachine.TraceIsChannelRun` | KanchoNet/Network/EpollModel.cpp:182-207 | every run of the readiness-driven backend is, state by state, a run of the channel |
| `EpollMachine.WillingSocketDrains` | KanchoNet/Network/EpollModel.cpp:382-403 | a socket that takes at least a byte each time gets everything accepted, and the session ends idle |
| `EpollMachine.NoWakeUpIsLost` | KanchoNet/Network/EpollModel.cpp:182-207 | over all runs with Sends that can fit and a working epoll_ctl, while connected: data is queued, the flag is up and EPOLLOUT is asked for all at the same time, and an idle session has its whole ring free |
| `EpollMachine.SendAgreement` | KanchoNet/Network/EpollModel.cpp:199-204 | flag and interest agree after a Send if and only if no epoll_ctl was needed or it succeeded |
| `EpollMachine.LoopAgreement` | KanchoNet/Network/EpollModel.cpp:384-392 | flag and interest agree after the send loop if and only if data is left, nothing was asked for, or the withdrawal succeeded |
| `EpollMachine.WithdrawalRepaired` | KanchoNet/Network/EpollModel.cpp:199-204 | after a failed withdrawal the next Send that fits makes flag and mask agree again, whatever epoll_ctl answers it; the mask is then as it was, which for an edge-triggered descriptor asks for no new edge |
| `EpollMachine.DeadStep` | KanchoNet/Network/EpollModel.cpp:182-207 | no event brings a dead session back or transmits for it |
| `EpollMachine.DeadIsForever` | KanchoNet/Network/EpollModel.cpp:182-207 | over all runs of Sends, writability events and disconnects, a dead session transmits nothing; when idle it accepts nothing and every Send returns false |
| `EpollMachine.DeadIffStuck` | KanchoNet/Network/EpollModel.cpp:192-204 | a session can be brought to transmit another byte if and only if it is mapped, its ring has room at all, and it is watched for writing or is idle with room left |
| `EpollMachine.DeathOf` | KanchoNet/Network/EpollModel.cpp:192-204 | a step makes a live session dead without disconnecting it if and only if it is a Send to a session that is idle and not watched, and overflows or fails to arm |
| `Sessions.Session.constructor` | KanchoNet/Session/Session.cpp:5-15 | a new session is idle, with an empty send ring of twice the packet size |
| `Sessions.Session.Enqueue` | KanchoNet/Network/IOCPModel.cpp:208-214 | the write under the lock takes the prefix that fits and records the call |
| `SessionGroups.OneOf` | KanchoNet/Session/Session.cpp:5-15 | each session has a ring of its own, so that one can be taken out and worked on while all others stay as they are known |
| `SessionGroups.Back` | KanchoNet/Session/Session.cpp:5-15 | and put back as it has become |
| `SessionGroups.Joins` | KanchoNet/Session/SessionManager.cpp:18-38 | a new session, with a new ring, disturbs none |
| `EpollServer.AskedIsTuned` | KanchoNet/Network/EpollModel.cpp:477-498 | ModifySocket changes what epoll is asked for that one descriptor, as in the send machine, and nothing for a socket that is not mapped or when epoll_ctl fails |
| `EpollServer.TableInv` | KanchoNet/Network/EpollModel.cpp:270-458 | accepts, receives and disconnects keep the laws of the tables, every send path in order, and the wiring (socket map and interest mask) in step with the send paths of all sessions |
| `EpollServer.SendInv` | KanchoNet/Network/EpollModel.cpp:182-207 | so does a Send of any session |
| `EpollServer.ProcessSendInv` | KanchoNet/Network/EpollModel.cpp:372-426 | and a writability event, also when it ends with a disconnect |
| `EpollServer.StepInv` | KanchoNet/Network/EpollModel.cpp:120-180 | all of this is inductive over the events of a server with any number of sessions |
| `EpollServer.RunInv` | KanchoNet/Network/EpollModel.cpp:120-180 | and holds over every run |
| `EpollServer.RegisteredSession` | KanchoNet/Network/EpollModel.cpp:306-323 | in every such state a registered session is mapped exactly while connected, is watched for writing only then, and what its descriptor is asked for is what its send path says |
| `EpollServer.PipesMoveAlone` | KanchoNet/Network/EpollModel.cpp:120-180 | whatever happens to others, an event makes one step of a session's send path or leaves it exactly as it was, interest and failure record included |
| `EpollServer.PipesRunAlone` | KanchoNet/Network/EpollModel.cpp:120-180 | over any run of the server, each session's send path goes through a run of its own machine, so that all results about those hold of it |
| `EpollModels.EpollModel.constructor` | KanchoNet/Network/EpollModel.cpp:12-18 | a new model holds no resource |
| `EpollModels.EpollModel.Laws` | KanchoNet/Network/EpollModel.cpp:270-458 | between calls the class has gone through a run of events, so every law of runs holds of it: the mapped sockets are the watched and the open ones, every session in the manager is connected, and every session there has been has a valid ring, the state of the history and a send path in order |
| `EpollModels.EpollModel.ItFits` | KanchoNet/Network/EpollModel.cpp:326-458 | a registered session is Connected or Disconnected; while connected it is in the manager and its descriptor is its own; and then what its fields and epoll show is its send path in the history |
| `EpollModels.EpollModel.Initialize` | KanchoNet/Network/EpollModel.cpp:25-79 | succeeds if and only if it was not initialised and no call fails; on every failure path exactly what was taken is given back; then all laws hold |
| `EpollModels.EpollModel.StartListen` | KanchoNet/Network/EpollModel.cpp:81-118 | runs afterwards if and only if it did before or everything succeeds; needs Initialize |
| `EpollModels.EpollModel.CloseAll` | KanchoNet/Network/EpollModel.cpp:218-224 | closes the descriptor of every session in the manager, in any order, once each |
| `EpollModels.EpollModel.Shutdown` | KanchoNet/Network/EpollModel.cpp:209-248 | gives back every resource; sessions, table and interest are empty and every session's descriptor is closed; no operation when not initialised |
| `EpollModels.EpollModel.CloseSession` | KanchoNet/Network/EpollModel.cpp:512-524 | the socket leaves the table and epoll, and no other does |
| `EpollModels.EpollModel.Register` | KanchoNet/Network/EpollModel.cpp:306-314 | connected and mapped; a socket that cannot be registered leaves the table again |
| `EpollModels.EpollModel.Admit` | KanchoNet/Network/EpollModel.cpp:293-323 | one connection: refused at the bound, else a fresh connected session, mapped and watched if registration works, and otherwise nothing in table or epoll; all other descriptors keep their interest |
| `EpollModels.EpollModel.Accept` | KanchoNet/Network/EpollModel.cpp:293-323 | the same, after which all sessions there have been are as the history with this connection says |
| `EpollModels.EpollModel.AcceptLoop` | KanchoNet/Network/EpollModel.cpp:273-323 | the loop takes all connections up to the first refusal of accept, one after the other |
| `EpollModels.EpollModel.ProcessAccept` | KanchoNet/Network/EpollModel.cpp:270-324 | is one more event of the history, for which AcceptResult says what it comes to, and keeps all laws |
| `EpollModels.EpollModel.Leave` | KanchoNet/Network/EpollModel.cpp:440-457 | the session is Disconnected with its ring as it was, and leaves table, epoll and manager; every other session and its interest are as the history says |
| `EpollModels.EpollModel.Disconnect` | KanchoNet/Network/EpollModel.cpp:435-457 | does this at most once for each session, because of the check of its state; one more event of the history |
| `EpollModels.EpollModel.ProcessDisconnect` | KanchoNet/Network/EpollModel.cpp:428-458 | the same for a pointer that may be null |
| `EpollModels.EpollModel.Deliver` | KanchoNet/Network/EpollModel.cpp:334-368 | the loop calls back for each read until there is nothing more, and ends with a disconnect if and only if the first answer without data says closed or failed |
| `EpollModels.EpollModel.Receive` | KanchoNet/Network/EpollModel.cpp:328-369 | nothing unless Connected; else that loop, as one more event of the history; Disconnected afterwards exactly if it was, or the loop ends so |
| `EpollModels.EpollModel.ProcessReceive` | KanchoNet/Network/EpollModel.cpp:326-370 | the same for a pointer that may be null |
| `EpollModels.EpollModel.Enqueue` | KanchoNet/Network/EpollModel.cpp:189-206 | on the real ring and table, a Send under the lock does and returns what the machine's Send does, and nothing is asked for another descriptor |
| `EpollModels.EpollModel.Submit` | KanchoNet/Network/EpollModel.cpp:182-207 | the same as one more event of the history: all other sessions, rings and interests are as they were |
| `EpollModels.EpollModel.Send` | KanchoNet/Network/EpollModel.cpp:182-207 | the same for a pointer that may be null and a buffer that may be empty; true if and only if the buffer is not empty and fits the free space of the real ring, which takes exactly the prefix that fits; keeps all laws |
| `EpollModels.EpollModel.Offer` | KanchoNet/Network/EpollModel.cpp:394-396 | the loop offers the oldest bytes, at most 8192 |
| `EpollModels.EpollModel.Withdraw` | KanchoNet/Network/EpollModel.cpp:384-392 | with nothing left the flag falls and the interest is withdrawn, as at the end of the machine's loop |
| `EpollModels.EpollModel.SendLoop` | KanchoNet/Network/EpollModel.cpp:379-425 | the loop terminates, on the real ring, where the machine's loop does: after each call of send exactly what the system took is skipped; nothing is asked for another descriptor |
| `EpollModels.EpollModel.Transmit` | KanchoNet/Network/EpollModel.cpp:379-425 | as one more event of the history; the ring keeps exactly what the system did not take, and the session is disconnected if and only if an answer breaks the loop and it has not been before; all other sessions are as they were |
| `EpollModels.EpollModel.ProcessSend` | KanchoNet/Network/EpollModel.cpp:372-426 | the same for a pointer that may be null |
| `EpollTable.AcceptInv` | KanchoNet/Network/EpollModel.cpp:293-323 | a connection keeps the table laws |
| `EpollTable.DisconnectInv` | KanchoNet/Network/EpollModel.cpp:428-458 | ProcessDisconnect of any session that was ever registered keeps the laws; its check of the state makes a second one no operation |
| `EpollTable.ReceiveInv` | KanchoNet/Network/EpollModel.cpp:326-370 | a receive loop keeps the table laws |
| `EpollTable.AcceptOne` | KanchoNet/Network/EpollModel.cpp:278-323 | one connection: with room a new connected session under the next id with that descriptor, in the socket map and announced if and only if it registers; else closed |
| `EpollTable.AcceptResult` | KanchoNet/Network/EpollModel.cpp:273-323 | for all answers of accept: every connection up to the first answer that is none is accepted, also past a refused or unregistered one; while there is room the k-th becomes the k-th new session as above, and the others are closed |
| `EpollTable.ReceiveResult` | KanchoNet/Network/EpollModel.cpp:326-370 | for all answers of recv: one Receive callback for each answer with data; the session is disconnected, with its one Disconnect callback, if and only if the first other answer says closed or failed, not EAGAIN |
| `EpollTable.StepInv` | KanchoNet/Network/EpollModel.cpp:270-324 | after every event: mapped sockets are the open and the watched client descriptors, each mapped to a live session that owns it; at most mMaxSessions sessions; each session has been Idle, Connected and possibly Disconnected, in that order, and is in the manager exactly while Connected; every callback history is legal; accepts are closes plus open descriptors |
| `EpollTable.EndedStaysEnded` | KanchoNet/Network/EpollModel.cpp:435-444 | after its Disconnect a session gets no further callback, although events may still name it |
| `EpollTable.RunLaws` | KanchoNet/Network/EpollModel.cpp:326-370 | over any run: each session's callbacks are Accept Receive* Disconnect?, its states Idle Connected Disconnected?, both only grow, and after the Disconnect there is nothing more; a session that failed to register has no callbacks |
| `EpollTable.ReachedInv` | KanchoNet/Network/EpollModel.cpp:270-458 | all of that holds of every state a run leads to |
| `EpollTable.LiveSessions` | KanchoNet/Network/EpollModel.cpp:306-314 | the live sessions are the mapped ones and, apart from them, those whose registration failed; the counts add up |
| `EpollTable.ShutdownBalance` | KanchoNet/Network/EpollModel.cpp:209-227 | Shutdown leaves no descriptor open; closes equal accepts if and only if no registration had failed, and otherwise exceed them by those |
| `SessionTable.NthIdBeforeWrap` | KanchoNet/Session/SessionManager.cpp:113-117 | the ids handed out are 1, 2, 3 and so on, up to the wrap of the 64-bit counter |
| `SessionTable.IdsGoodUntilWrap` | KanchoNet/Session/SessionManager.cpp:113-117 | the first n ids are all different and never 0 if and only if n is below 2^64 |
| `SessionTable.ApplyInv` | KanchoNet/Session/SessionManager.cpp:18-56 | no operation exceeds the bound, and up to the wrap none brings back an id that is gone |
| `SessionTable.GoneStaysGone` | KanchoNet/Session/SessionManager.cpp:18-111 | over any run of adds, removes and clears an id that is gone stays gone, and the bound holds |
| `SessionManagers.SessionManager.constructor` | KanchoNet/Session/SessionManager.cpp:6-11 | empty, and the first id will be 1 |
| `SessionManagers.SessionManager.GenerateSessionID` | KanchoNet/Session/SessionManager.cpp:113-117 | hands out the next id of the sequence, and only counts |
| `SessionManagers.SessionManager.AddSession` | KanchoNet/Session/SessionManager.cpp:18-38 | null exactly when full, and then nothing changes; else a fresh idle session under the next id, which no other session has before the wrap |
| `SessionManagers.SessionManager.RemoveSession` | KanchoNet/Session/SessionManager.cpp:40-56 | reports whether the id was there, and removes it and no other |
| `SessionManagers.SessionManager.GetSession` | KanchoNet/Session/SessionManager.cpp:58-69 | null exactly for an id that is not live; else the session that bears the id |
| `SessionManagers.SessionManager.Clear` | KanchoNet/Session/SessionManager.cpp:106-111 | removes all sessions and does not restart the ids |
| `IocpContexts.CallSendInv` | KanchoNet/Network/IOCPModel.cpp:199-224 | a Send allocates a context only when the session has none for sending |
| `IocpContexts.ShutdownInv` | KanchoNet/Network/IOCPModel.cpp:226-263 | Shutdown, between completions, keeps all laws |
| `IocpContexts.StepInv` | KanchoNet/Network/IOCPModel.cpp:128-197 | every single step of any worker keeps: contexts made are those freed and those live; of those whose handling has not got to the next post, one receive and one send at most for each session, and one accept; no two owners share a socket |
| `IocpProperties.ContextsConserved` | KanchoNet/Network/IOCPModel.cpp:539-555 | over any interleaving, also beyond Shutdown, contexts made minus freed are those the kernel holds, those being handled, those waiting to be freed and those Shutdown leaves behind; the bound of one receive, one send and one accept holds of those not handled yet |
| `IocpProperties.FreedOnce` | KanchoNet/Network/IOCPModel.cpp:157-196 | over any interleaving, a completion is taken at most once, and each context taken has been freed exactly once or is still with its worker |
| `IocpProperties.FreeingCommutes` | KanchoNet/Network/IOCPModel.cpp:171-196 | a worker may free a handled context as late as it likes: every step of others is possible and has the same outcome before and after |
| `IocpSockets.ShutdownCloses` | KanchoNet/Network/IOCPModel.cpp:226-242 | after Shutdown a socket is open if and only if it was lost before or waited for a connection; every socket of a session in the manager is closed |
| `IocpSockets.AdmitResult` | KanchoNet/Network/IOCPModel.cpp:340-372 | a connection becomes a connected session with its socket if and only if there is room, and the socket stays open if and only if that session also got its receive |
| `IocpSockets.LostExactly` | KanchoNet/Network/IOCPModel.cpp:159-169 | an open socket loses its last owner exactly by the disconnect of its session, by an accept completion that fails or is empty, or, if it waits for a connection, by Shutdown |
| `IocpSockets.LostForever` | KanchoNet/Network/IOCPModel.cpp:425-450 | such a socket is never closed, over any run, also not by Shutdown |
| `IocpSockets.OpenAfterShutdown` | KanchoNet/Network/IOCPModel.cpp:226-263 | over any run, whatever is still open after Shutdown has been lost |
| `IocpSockets.RunBalance` | KanchoNet/Network/IOCPModel.cpp:528-537 | over any run, calls of close and open sockets add up to the sockets made and the calls on sockets that were closed already |
| `IocpSockets.ShutdownBalance` | KanchoNet/Network/IOCPModel.cpp:226-263 | after Shutdown closes equal sockets made if and only if as many are lost as sessions in the manager had theirs closed before |
| `IocpCallbacks.CallsStep` | KanchoNet/Network/IOCPModel.cpp:367-399 | every step of any worker keeps: a session whose first receive was posted has been announced or is about to be by exactly one worker, and receives are out for such sessions only |
| `IocpCallbacks.AcceptComesFirstUnless` | KanchoNet/Network/IOCPModel.cpp:367-378 | when a completion of a receive makes its callback (with the data, or because the connection is over), the Accept callback has been made if and only if no worker is about to make it |
| `IocpCallbacks.AcceptCanComeLate` | KanchoNet/Network/IOCPModel.cpp:367-378 | a run from the start in which Receive, or Disconnect, is the first callback of a session |
| `IocpCallbacks.ReceiveCanComeAfterDisconnect` | KanchoNet/Network/IOCPModel.cpp:386-398 | a run from the start in which Receive comes after Disconnect, the check having been made before |
| `IocpCallbacks.AcceptsOverlap` | KanchoNet/Network/IOCPModel.cpp:335-338 | a run from the start in which two accept contexts are live |
| `IocpCallbacks.ReceivesOverlap` | KanchoNet/Network/IOCPModel.cpp:391-398 | after every delivery two receive contexts of the session are live |
| `IocpCallbacks.NoAcceptNoSession` | KanchoNet/Network/IOCPModel.cpp:312-322 | as long as accept completions fail or carry no data, no session is ever made and no callback |
| `IocpWaiting.ListeningStep` | KanchoNet/Network/IOCPModel.cpp:298-338 | in any interleaving the model waits for a connection exactly if it did before and this is not the step that ends it (an accept taken for an error, the next one refused, Shutdown), or if it has just been started |
| `IocpWaiting.ListeningEnds` | KanchoNet/Network/IOCPModel.cpp:94-98 | over any run of a model that was started, it waits for connections until exactly one of those steps, and then never again |
| `IocpWaiting.NewcomerHears` | KanchoNet/Network/IOCPModel.cpp:353-372 | the bytes of a new session are waited for if and only if its socket was associated and its first receive taken |
| `IocpWaiting.HearingEnds` | KanchoNet/Network/IOCPModel.cpp:383-399 | over any run, a session's bytes are waited for until exactly a receive that brings nothing or finds it disconnected, a refused next receive, or Shutdown; and then never again |
| `IocpCalls.ProcessIOIsRun` | KanchoNet/Network/IOCPModel.cpp:128-197 | an undisturbed call of ProcessIO is a run of the single steps between which other workers can come |
| `IocpCalls.CallIsRun` | KanchoNet/Network/IOCPModel.cpp:86-263 | and so are calls of StartListen, Send and Shutdown |
| `IocpCalls.HandleKeeps` | KanchoNet/Network/IOCPModel.cpp:157-196 | on every path of ProcessIO the context taken is gone afterwards and every other one is as it was |
| `IocpHistories.CallOrderly` | KanchoNet/Network/IOCPModel.cpp:335-450 | each undisturbed call keeps: the callbacks of a session fit what has become of it |
| `IocpHistories.CompletionCalls` | KanchoNet/Network/IOCPModel.cpp:157-197 | which callback an undisturbed completion makes: Accept for a connection with session and receive, Receive for data of a connected session, Disconnect if it fails, is empty or a disconnect, else none |
| `IocpHistories.HistoriesAreLegal` | KanchoNet/Network/IOCPModel.cpp:335-450 | over any run of undisturbed calls, with Sends only to sessions callers have been told of, each session's callbacks are Accept Receive* Disconnect?; one whose first receive failed has none |
| `IocpServer.CompletedIsRun` | KanchoNet/Network/IOCPModel.cpp:401-423 | a completion handled by ProcessSend is three steps of the send machine: the kernel's, the dequeue, and the call |
| `IocpServer.CompletedFits` | KanchoNet/Network/IOCPModel.cpp:401-423 | it leaves the send path in order, and the session's record a summary of it |
| `IocpServer.StepInv` | KanchoNet/Network/IOCPModel.cpp:86-263 | every call keeps the laws of the ledger, the order of callbacks, and every session's send path in order and in step with the ledger; while a session is connected, a send under way has its context |
| `IocpServer.RunInv` | KanchoNet/Network/IOCPModel.cpp:86-263 | and so does every run of calls |
| `IocpServer.PipesMoveAlone` | KanchoNet/Network/IOCPModel.cpp:128-224 | whatever happens to others, a call makes steps of a session's own send path or leaves it exactly as it was |
| `IocpServer.PipesRunAlone` | KanchoNet/Network/IOCPModel.cpp:128-224 | over any run of calls, each session's send path goes through a run of the send machine, so that all results about those hold of it |
| `IocpServer.OneSendContext` | KanchoNet/Network/IOCPModel.cpp:216-223 | of a connected session a send is under way if and only if the kernel has a send context for it, and it never has two |
| `IocpServer.FailureCuts` | KanchoNet/Network/IOCPModel.cpp:159-169 | a send that fails or moves nothing disconnects its session, which keeps its flag up without any context |
| `IocpServer.CutIsForever` | KanchoNet/Network/IOCPModel.cpp:159-224 | over any run, nothing more of such a session gets on the wire |
| `IocpSummary.SendingHandled` | KanchoNet/Network/IOCPModel.cpp:199-224 | what of a Send can be seen in fields and sessions: one ring and flag, and one new context with a copy of the front of the ring if it came to a post the kernel took |
| `IocpSummary.CompletingHandled` | KanchoNet/Network/IOCPModel.cpp:157-196 | what of the handling of a completion can be seen: its context is gone and no other, and apart from the one session, or the new one, all are as they were |
| `IocpSummary.StoppingHandled` | KanchoNet/Network/IOCPModel.cpp:226-242 | what of Shutdown can be seen: exactly the sockets of the sessions in the manager are closed, and every context is still there |
| `IocpModels.IOCPModel.constructor` | KanchoNet/Network/IOCPModel.cpp:7-22 | a new model holds nothing |
| `IocpModels.IOCPModel.Laws` | KanchoNet/Network/IOCPModel.cpp:128-263 | between calls the class has gone through a run of calls, so that every law of runs holds of it; every session there has been has a valid ring, the state of the history and a send path in order |
| `IocpModels.IOCPModel.SendLaw` | KanchoNet/Network/IOCPModel.cpp:199-224 | a session in the manager is connected; its flag is up if and only if a send context for it is out, and there is one at most |
| `IocpModels.IOCPModel.Acquire` | KanchoNet/Network/IOCPModel.cpp:34-75 | on every failure path exactly what had been taken is given back |
| `IocpModels.IOCPModel.Initialize` | KanchoNet/Network/IOCPModel.cpp:24-84 | succeeds if and only if it was not initialised and no call fails; else nothing changes |
| `IocpModels.IOCPModel.StartListen` | KanchoNet/Network/IOCPModel.cpp:86-126 | succeeds if and only if initialised, and running already or listening, associated and the first accept accepted; one more call of the history |
| `IocpModels.IOCPModel.RegisterAccept` | KanchoNet/Network/IOCPModel.cpp:298-333 | one accept context with an open socket goes to the kernel, or neither is left |
| `IocpModels.IOCPModel.PostReceive` | KanchoNet/Network/IOCPModel.cpp:452-482 | one receive context goes to the kernel, or none is left |
| `IocpModels.IOCPModel.PostSend` | KanchoNet/Network/IOCPModel.cpp:484-526 | on the real ring, a context with a copy of its front goes to the kernel, or none is left and the flag is down, as in the machine |
| `IocpModels.IOCPModel.Enqueue` | KanchoNet/Network/IOCPModel.cpp:206-223 | on the real ring, a Send under the lock does and returns what the machine's Send does, and leaves one new context exactly when it came to a post the kernel took |
| `IocpModels.IOCPModel.Send` | KanchoNet/Network/IOCPModel.cpp:199-224 | the same for a pointer that may be null and a buffer that may be empty, as one more call of the history: all other sessions and contexts are as they were |
| `IocpModels.IOCPModel.Continue` | KanchoNet/Network/IOCPModel.cpp:411-422 | on the real ring, what was sent is skipped and the next send posted, or the flag lowered, as in the machine |
| `IocpModels.IOCPModel.AddClient` | KanchoNet/Network/IOCPModel.cpp:340-350 | null exactly at the bound, and then nothing changes; else a fresh connected session for that socket |
| `IocpModels.IOCPModel.Join` | KanchoNet/Network/IOCPModel.cpp:340-350 | the same with all sessions: no other is touched |
| `IocpModels.IOCPModel.ProcessIO` | KanchoNet/Network/IOCPModel.cpp:128-197 | takes one completion and is one more call of the history, keeping all laws; false exactly when not running or the port fails, and without a completion nothing changes |
| `IocpModels.IOCPModel.CloseAll` | KanchoNet/Network/IOCPModel.cpp:235-242 | closes the socket of every session in the manager, in any order, and no other |
| `IocpModels.IOCPModel.Shutdown` | KanchoNet/Network/IOCPModel.cpp:226-263 | gives back every resource and closes those sockets; the contexts the kernel has stay allocated; one more call of the history |
| `Growth.AppendAmortised` | KanchoNet/Buffer/PacketBuffer.cpp:83-97 | a reallocation more than doubles the capacity |
| `Growth.MovesAreAmortised` | KanchoNet/Buffer/PacketBuffer.cpp:83-97 | over any run of appends, all reallocations together move fewer bytes than twice the final size |
| `PacketBuffers.PacketBuffer.constructor` | KanchoNet/Buffer/PacketBuffer.cpp:12-16 | empty, with the capacity asked for |
| `PacketBuffers.PacketBuffer.FromData` | KanchoNet/Buffer/PacketBuffer.cpp:18-26 | holds the bytes given, or as many zeros for a null pointer |
| `PacketBuffers.PacketBuffer.Clear` | KanchoNet/Buffer/PacketBuffer.cpp:66-70 | empty; the storage stays |
| `PacketBuffers.PacketBuffer.Reserve` | KanchoNet/Buffer/PacketBuffer.cpp:72-75 | never shrinks, keeps the contents, and moves every element when it reallocates |
| `PacketBuffers.PacketBuffer.Resize` | KanchoNet/Buffer/PacketBuffer.cpp:77-81 | old bytes stay, the rest are zero; after a Clear the bytes that were there come back |
| `PacketBuffers.PacketBuffer.Append` | KanchoNet/Buffer/PacketBuffer.cpp:83-97 | the contents are the old ones followed by the new bytes, or unchanged when the storage cannot grow; a null pointer or size 0 is no operation; storage grows by the doubling rule |
| `PacketRuns.AppendAll` | KanchoNet/Buffer/PacketBuffer.cpp:83-97 | over a run of appends the contents are all inputs one after the other, and reallocations have moved fewer bytes than twice the size; only inputs no vector could hold make it stop |
| `PacketBuffers.PacketBuffer.SetData` | KanchoNet/Buffer/PacketBuffer.cpp:107-116 | the contents are the bytes given, or nothing for a null pointer |
| `NetworkEngines.NetworkEngine.constructor` | KanchoNet/Core/NetworkEngine.h:79-85 | neither initialised nor running, nothing held |
| `NetworkEngines.NetworkEngine.Initialize` | KanchoNet/Core/NetworkEngine.h:93-133 | succeeds if and only if not initialised, the configuration is valid and the model initialises; resources are held if and only if it is initialised afterwards |
| `NetworkEngines.NetworkEngine.Start` | KanchoNet/Core/NetworkEngine.h:135-150 | succeeds if and only if initialised, not running yet, and listening works |
| `NetworkEngines.NetworkEngine.Stop` | KanchoNet/Core/NetworkEngine.h:152-168 | never running afterwards; resources are still held if and only if it was initialised but not running |
| `NetworkEngines.NetworkEngine.Send` | KanchoNet/Core/NetworkEngine.h:181-190 | false, with model, session and ring unchanged, unless running; otherwise what the model's Send does, true if and only if the buffer is not empty and fits; the engine stays in step with the model |

## Left out

- RIOModel: its post functions are stubs that only log, so there is no behaviour to state.
- IOUringModel: its send path takes the session's non-recursive spin lock while already holding it, so that no progress can be claimed.
- Socket and kernel calls (WSASend, WSARecv, AcceptEx, epoll_ctl, accept, recv, send, SocketUtils): they are parameters of the methods and steps of the machines, with any result the system may give; a send takes between one byte and what it was offered, and accept returns only descriptors that are not open.
- Lifetime of session objects: a disconnect destroys the session while contexts, a held lock guard or the next branch of the event loop may still refer to it. In tables, ledger and classes a disconnected session stays as a record until Shutdown, so that such calls have a meaning; the epoll model says of a Send to one whose descriptor has become another session's only what it does to its own ring and to what is asked for that descriptor.
- EpollModel::ProcessIO: the batch loop over reported events is not modelled; events are taken one at a time, each naming its session (the code stores pointer and descriptor in one union).
- Concurrent disconnects: the check and the setting of the state in ProcessDisconnect are two accesses; that callbacks come only once is claimed for events handled one at a time.
- Callbacks: that they are made, how often, and in which order, is recorded, but not the received bytes they are given; what the application does inside them (such as another Send) is a further event.
- IOCPModel initialised again after Shutdown: a new history begins, and the contexts and sockets that the old one lost are not counted in it.
- IOCPModel::Shutdown while a worker is handling a completion: the code closes sessions under the worker's hands; the ledger lets Shutdown come between completions only.
- Workers that interleave inside IOCPModel calls: the ledger has their steps with byte counts; the class, which has the bytes, takes whole calls, as one worker does, and Threads has the accesses of one session's send path.
- Edges of epoll: an event may come while it is asked for; when an edge-triggered descriptor really reports one is not modelled, so results that a session "can be brought to" transmit say that no step of the code is in the way.
- SpinLock::lock as a loop: it need not terminate, so its accesses are steps of a state machine and no method; memory ordering is taken as sequentially consistent.
- Ring operations inside the threaded machine: one step each, since the ring is touched only under the lock.
- Threads of the epoll backend: `ModifySocket` reads the socket map under the session's lock while the event thread changes it under none, so no interleaving of accesses can be claimed to be safe; its steps are whole calls.
- Contexts between allocation and the system call: one step, since nobody else can see the context in between; a refused one gives its address back. ProcessDisconnect (the check, the setting of the state and the callback), and a Receive callback with the post after it, are one step each.
- EpollModels.EpollModel.ProcessSend: the socket number of a session that is already disconnected may belong to a new session; then the contract says only what happens to the old session's ring and to what is asked for that number, as the code does.
- EpollModels.EpollModel.Send: the same.
- RingBuffers.RingBuffer.constructor: capacities from 2^63 - 1 on, which no vector can have, are excluded.
- Moved-from buffers, copies of packet buffers, PacketBuffer::Append of a buffer to itself, the raw-pointer overload of NetworkEngine::Send, mRecvBuffer (never used), session timeouts, user data.
- Logger, EngineConfig checks, BufferPool, GetSession and Broadcast of the engine (stubs), the example servers.
