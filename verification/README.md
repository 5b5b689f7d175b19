# Frank_muduo: the reactor, proved

A Dafny model of the TCP reactor in this repository and proofs of what it
promises: the event loop and its cross-thread queue, the epoll registration of
channels, the byte buffer, the send path of a connection, and the life of
connections across a base loop and any number of I/O loops.

Everything outside the library is arbitrary. The kernel answers `readv` and
`write` as it likes within `Posix.dfy`, epoll reports any registered channels
with any masks, user callbacks may call back at any point, and threads
interleave between any two atomic actions. The theorems hold for every run.

## How it is built

Three layers.

* **Code.** Classes with the source's fields and statements: `Buffer` over a real
  array, `Channel` and `EPollPoller`, `EventLoop`, `TcpConnection`,
  `EventLoopThreadPool`, `TcpServer`, `EchoServer`. A method's contract equates
  its whole new state with a step function of the old one.
* **Steps.** The step functions: `Buffers`, `Epoll`, `LoopProtocol`, `Connection`,
  `Server`, `Lifecycle`.
* **Runs.** Lemmas over all sequences of steps.

The lifecycle joins several classes and has step functions of its own.
`Projection` proves that they are those of the code: an accept, a removal and a
close do to the server and the loops' queues what the methods of `TcpServer` do,
and every event of a `Connection` is, in its state, mask and registration, one
lifecycle action or nothing.

`EventLoop` carries a ghost copy of the state of `LoopProtocol`, and every
statement that other threads can see is one step of it. Between two such
statements the method `LetRun` lets everybody else move. `OthersKeepLoopRely` and
`AllKeepOtherRely` prove that the contract of `LetRun` covers any number of steps
of the other threads.

| file | subject |
|---|---|
| `Posix.dfy` | bytes, errno, what `read` and `write` may answer |
| `Buffer.dfy` | the byte queue, its index arithmetic and the capacity bound |
| `Epoll.dfy`, `KernelMirror.dfy` | masks, dispatch, the registration automaton as a mirror of the epoll set |
| `LoopProtocol.dfy`, `EventLoop.dfy` | queue, wakeup, quit: the protocol and the code |
| `ConnState.dfy`, `Connection.dfy`, `ConnectionRuns.dfy`, `ConnectionLaws.dfy`, `TcpConnection.dfy` | one connection: steps, run theorems, laws by calls and kernel answers, code |
| `HalfClose.dfy`, `HalfCloseExact.dfy` | when `shutdown()` is a proper half-close, and that the condition is exact |
| `Echo.dfy` | the echo server, end to end |
| `Names.dfy`, `Server.dfy` | connection names, ownership by name, round robin |
| `Lifecycle*.dfy` | connections from accept to close across loops: steps, invariant, preservation, theorems, repeated close |
| `Projection.dfy` | the lifecycle's actions are those of the code |

## Results

* **Loop.** No wakeup is lost, functors run first in first out and exactly once, a
  batch runs exactly what was queued at its swap, quit ends the loop within the
  current iteration. Two exceptions are real and are proved to be: a functor the
  loop's own thread queues before `loop()` wakes nobody (`QueueBeforeLoopIsLost`),
  and a quit before `loop()` is forgotten (`QuitBeforeLoopIsLost`).
* **Buffer.** It is a byte queue, the in-place copy never moves onto itself, and the
  allocation stays at 1032 bytes while the contents have never exceeded 1024 and
  within 2 * peak + 6 from then on; for every peak that value is reached.
* **Registration.** The index, the fd map and the epoll set always agree and no
  `epoll_ctl` is ever refused, although `disableAll` tells epoll nothing.
* **Stream.** Every message given to `send()`, on any thread, comes to `sendInLoop` once,
  whole and in order, and every byte read is there for the user until taken
  (`EverySendArrives`, `InboundIntegrity`). Bytes with the kernel followed by the
  output buffer are the messages taken on, whole and in order. Write interest is the
  backlog, EPOLLOUT in the kernel mask. Flow-control callbacks are the crossings.
* **Half-close.** `shutdown()` is clean for every program that sends and shuts down
  on the loop thread. In general it is not: called on the loop thread it is clean
  if and only if no non-empty message is queued (or about to be) that the FIN could
  overtake (`SafeLocal`); called elsewhere, if and only if there is no backlog and
  nothing queued or under way to make one (`SafeForeign`). Both directions are
  proved from every reachable state, `ForeignShutdownFinsTwice` shows a run with two
  FINs, and `FinGoesOut` that the FIN is not forgotten.
* **Echo.** Until a write faults, the client gets back a prefix of what it sent. The
  restriction is exact: a connection that is up keeps the prefix in every further
  fault-free run if and only if no write has faulted (`EchoPrefixExact`).
* **Lifecycle.** Nothing registered is ever dangling, each connection is added to
  epoll once and dropped once, repeated close is harmless and can happen in a later
  poll exactly to connections that do not live on the server's own loop, teardown
  under a reused fd or a late erase touches its own connection only, no listed
  channel goes away during dispatch, and when everything is quiet the server's map
  and the epoll sets hold the same connections.

## Code and comments

Where the two disagree the model follows the code.

* src/TcpConnection.cc:201 says that `disableAll` deletes the interest from the
  poller. include/Channel.h:59 only clears the mask, so a closed connection stays
  in the epoll set and can be reported and closed again before it is destroyed.
  The model keeps this (`CloseLeavesKernelInterest`, `CloseCanRepeat`).
* include/Buffer.h:35 takes an initial size and ignores it.

## Model

| member | source | states |
|---|---|---|
| Buffers.Buffer.constructor | include/Buffer.h:35-39 | a new buffer is empty, both indices at 8, 1032 bytes allocated whatever size was asked for |
| Buffers.Buffer.Retrieve | include/Buffer.h:64-76 | drops exactly the first `len` bytes, or everything; an emptied buffer has both indices back at 8 |
| Buffers.Buffer.RetrieveAll | include/Buffer.h:78-81 | empties the buffer and keeps the allocation |
| Buffers.Buffer.RetrieveAllAsString | include/Buffer.h:84-88 | returns the whole contents and leaves nothing |
| Buffers.Buffer.RetrieveAsString | include/Buffer.h:90-97 | what is returned followed by what is left is what was there; asked for more, it returns bytes from behind the contents and leaves nothing |
| Buffers.Buffer.EnsureWritableBytes | include/Buffer.h:100-106 | room for `len` more bytes, contents untouched, growth or sliding only when the free tail is too small |
| Buffers.Buffer.MakeSpace | include/Buffer.h:142-164 | contents survive growth and sliding; grows only if reclaimed and free space together are too small |
| Buffers.Buffer.SlideDown | include/Buffer.h:157-162 | the overlapping upward copy preserves the contents; it is only reached with the reader strictly above the destination |
| Buffers.Buffer.Append | include/Buffer.h:109-114 | contents become the old contents followed by the new bytes |
| Buffers.Buffer.ReadFd | src/Buffer.cc:14-48 | appends exactly the bytes delivered, in order, through the free tail and the stack area; an error changes nothing and is handed back |
| Buffers.Buffer.FillAndAppend | src/Buffer.cc:40-46 | a read that overran the tail is joined in order from tail and stack area |
| Buffers.Buffer.Overflow | src/Buffer.cc:16-30 | the stack area of 65536 bytes always holds the part that did not fit the tail |
| Buffers.Buffer.WriteFd | src/Buffer.cc:50-60 | offers the whole readable region, consumes nothing, what is taken is a prefix |
| Buffers.Run | include/Buffer.h:64-164 | after any sequence of operations 8 <= reader <= writer <= size, and empty means both indices are at 8 |
| Buffers.SpaceIsMadeWhenNeeded | include/Buffer.h:100-164 | space is made only if the tail is too small, by sliding if everything fits behind the first 8 bytes, by growing to the last byte needed if not, and nothing readable is lost |
| Buffers.ReadCapacityLaw | src/Buffer.cc:16-28 | a read can always deliver 65536 bytes, and offers the stack area exactly when the free tail is smaller than it |
| Buffers.AppendGrowth | include/Buffer.h:99-114 | an append that grows the allocation has contents above 1024 and leaves it at most 2 * contents + 6 |
| Buffers.ReadGrowth | src/Buffer.cc:35-46 | so does a read |
| Buffers.CapacityBound | include/Buffer.h:142-164 | over any operations the allocation is at most 1032 if the contents never exceeded 1024, and at most 2 * largest contents + 6 otherwise |
| Buffers.CapacityBoundTight | include/Buffer.h:142-164 | for every peak some operations reach exactly that value |
| Epoll.EPollPoller.UpdateChannel | src/EPollPoller.cc:75-105 | new and deleted channels are added, a channel without interest is dropped, any other is modified; map, index and epoll set change accordingly |
| Epoll.EPollPoller.RemoveChannel | src/EPollPoller.cc:108-123 | the map entry goes, the epoll entry goes if there is one, the index is new again |
| Epoll.EPollPoller.Update | src/EPollPoller.cc:138-161 | epoll_ctl with the kernel's refusals counted |
| Epoll.EPollPoller.HasChannelFor | src/Poller.cc:8-12 | true exactly when the fd is mapped to this very channel |
| Epoll.OneChannelPerFd | src/Poller.cc:8-12 | of two channels with one fd the poller has at most one, the last that was new to it |
| Epoll.EPollPoller.FillActiveChannels | src/EPollPoller.cc:126-135 | the active list is the reported registrations in order, each carrying its reported mask |
| Epoll.Channel.EnableReading | include/Channel.h:55 | the mask gains reading and is pushed to the poller |
| Epoll.Channel.DisableReading | include/Channel.h:56 | the mask loses reading and is pushed to the poller |
| Epoll.Channel.EnableWriting | include/Channel.h:57 | the mask gains writing and is pushed to the poller |
| Epoll.Channel.DisableWriting | include/Channel.h:58 | the mask loses writing and is pushed to the poller |
| Epoll.Channel.DisableEverything | include/Channel.h:59 | the mask is cleared and the poller is not told |
| Epoll.Channel.RemoveFromPoller | src/Channel.cc:42-45 | deregistration through the poller |
| Epoll.Channel.HandleEvent | src/Channel.cc:47-67 | a tied channel whose owner is gone makes no callback, any other makes those of the reported mask |
| Epoll.Channel.HandleEventWithGuard | src/Channel.cc:70-105 | makes exactly the callbacks of the reported mask, in order |
| Epoll.MaskBits | src/Channel.cc:7-9 | asking for writability sets EPOLLOUT, asking for reading sets EPOLLIN and EPOLLPRI, the two withdrawals clear them, and the three tests look at these bits |
| Epoll.WritingKeepsBits | include/Channel.h:57-58 | the writing operations leave every other bit alone |
| Epoll.ReadingKeepsBits | include/Channel.h:55-56 | the reading operations leave every other bit alone |
| Epoll.OneBitReports | src/Channel.cc:70-105 | a report of EPOLLOUT makes just the write callback, of EPOLLIN or EPOLLPRI just the read callback, of EPOLLHUP just the close callback, of EPOLLERR just the error callback |
| Epoll.DispatchExactly | src/Channel.cc:74-104 | close on hang-up without input, error on error, read on input or urgent data, write on writability, and nothing else |
| Epoll.DispatchInOrder | src/Channel.cc:74-104 | each at most once, in the order close, error, read, write |
| Epoll.CloseThenRead | src/Channel.cc:74-96 | one report closes and then reads exactly when it has a hang-up, urgent data and no ordinary input |
| Epoll.UpdatedSlot | src/EPollPoller.cc:75-105 | for its own fd an update depends on nothing but that fd's index, map entry and epoll entry |
| Epoll.RemovedSlot | src/EPollPoller.cc:108-123 | likewise for a removal |
| Epoll.OtherFdsUntouched | src/EPollPoller.cc:75-123 | neither touches what the poller or the kernel holds for any other fd |
| KernelMirror.MirrorStep | include/Channel.h:55-59 | every channel operation keeps index, fd map and epoll set in agreement for all channels at once |
| KernelMirror.MirrorAlways | src/EPollPoller.cc:75-161 | after any operations on channels with distinct fds: in the epoll set iff the index is added, with the mask last submitted; hasChannel iff the index is not new; no ADD of a present fd and no MOD or DEL of an absent one |
| KernelMirror.DisableAllIsSilent | include/Channel.h:59 | after disableAll the kernel still watches the mask last submitted |
| KernelMirror.UpdateReaches | src/EPollPoller.cc:75-105 | after an update the kernel holds the channel's new mask; one that leaves nothing to ask for takes the fd out of the epoll set but not out of the map |
| KernelMirror.SubmittedBits | include/Channel.h:55-58 | the masks the four updates submit, by EPOLLIN, EPOLLPRI and EPOLLOUT; the enabling ones are never empty |
| KernelMirror.UpdatesKeepOtherBits | include/Channel.h:55-58 | a bit that an update does not name stays as it was |
| KernelMirror.TheOtherTwo | src/EPollPoller.cc:108-123 | disableAll clears the mask and changes nothing else; remove leaves neither kernel nor map entry and keeps the mask |
| LoopProtocol.InvStep | src/EventLoop.cc:62-191 | every action of the loop thread or of any other keeps the wakeup, quit and ordering invariant |
| LoopProtocol.NoLostWakeup | src/EventLoop.cc:116-157 | the loop waits in poll with any functor queued, besides those its own thread queued before loop(), only if the eventfd is readable or another thread is between its push and its wakeup |
| LoopProtocol.QueueBeforeLoopIsLost | src/EventLoop.cc:116-134 | such a functor does leave the loop waiting unattended, exactly when nobody else had woken it or was about to |
| LoopProtocol.FifoExactlyOnce | src/EventLoop.cc:116-134 | executed functors, the rest of the batch and the queue, end to end, are the log of queued functors in lock order |
| LoopProtocol.BatchIsClosed | src/EventLoop.cc:175-191 | from a swap to the next poll only functors queued before the swap run |
| LoopProtocol.BatchLength | src/EventLoop.cc:185-188 | a batch ends after exactly as many functors as were swapped out, even if each requeues itself |
| LoopProtocol.ServedNextIteration | src/EventLoop.cc:69-84 | once an iteration is over, every functor queued by the time it polled has run, in order |
| LoopProtocol.QuitWakes | src/EventLoop.cc:91-100 | the loop waits in poll with quit set only if the eventfd is readable or the quitting thread is about to write it |
| LoopProtocol.QuitEndsTheLoop | src/EventLoop.cc:69-84 | once set inside loop() the flag stays set and poll is never entered again |
| LoopProtocol.QuitBeforeLoopIsLost | src/EventLoop.cc:64-69 | a quit before loop() is forgotten and the loop goes to poll |
| LoopProtocol.QuitTakesEffect | src/EventLoop.cc:69-98 | a quit inside loop() sets the flag, poll is entered no more, and the next test of the flag leaves the loop |
| LoopProtocol.CounterCountsWakes | src/EventLoop.cc:149-157 | between two calls of handleRead the eventfd counts the wakeups, up to 2^64 - 2 |
| LoopProtocol.DrainedUntilWoken | src/EventLoop.cc:137-145 | after handleRead the eventfd is readable, and its channel reported, exactly if somebody has woken the loop since |
| EventLoops.OthersKeepLoopRely | src/EventLoop.cc:91-134 | whatever other threads do, the loop thread's position, batch and history stand, the queue only grows and quit stays set |
| EventLoops.AllKeepOtherRely | src/EventLoop.cc:91-134 | whatever anybody else does, a thread inside a call keeps its place and no log entry is lost |
| EventLoops.EventLoop.QueueInLoop | src/EventLoop.cc:116-134 | the functor is next in lock order; off the loop thread, and from a functor, a wakeup follows |
| EventLoops.EventLoop.WakeIfNeeded | src/EventLoop.cc:130-133 | wakes exactly for other threads and while functors are being called |
| EventLoops.EventLoop.WakeUp | src/EventLoop.cc:149-157 | leaves the eventfd readable even when its counter is full |
| EventLoops.EventLoop.Quit | src/EventLoop.cc:91-100 | sets the flag, and wakes the loop when called elsewhere |
| EventLoops.EventLoop.RunInLoop | src/EventLoop.cc:103-113 | on the loop thread the functor itself runs, in place; elsewhere it is queued |
| EventLoops.EventLoop.HandleRead | src/EventLoop.cc:137-145 | the eventfd is no longer readable |
| EventLoops.EventLoop.DoPendingFunctors | src/EventLoop.cc:175-191 | everything queued before the call and nothing queued after the swap is called, each functor once, in order: what the thread has done meanwhile is exactly what those functors do |
| EventLoops.EventLoop.RunBatch | src/EventLoop.cc:185-188 | calls the functors of the batch one after the other, each once |
| EventLoops.EventLoop.Perform | src/EventLoop.cc:89-134 | user code on the loop thread: each of its calls of queueInLoop and quit is made, in order |
| EventLoops.EventLoop.SwapOut | src/EventLoop.cc:177-183 | the flag goes up before the swap, and the batch is the whole queue |
| EventLoops.EventLoop.Loop | src/EventLoop.cc:62-87 | returns only with quit set; each round polls once and has run everything queued when its batch was swapped; what the thread has done is, round by round, what the handlers and then the functors of that batch do |
| EventLoops.EventLoop.Poll | src/EventLoop.cc:73 | the wakeup handler is dispatched only if the eventfd is readable |
| Connection.CallsAreTheirActions | src/TcpConnection.cc:67-86 | a send or shutdown that is not interrupted is its look at the state followed by its effect |
| ConnectionRuns.SendKeepsStream | src/TcpConnection.cc:89-162 | sendInLoop takes a message on whole, behind everything before it, or drops it whole |
| ConnectionRuns.StreamIntegrity | src/TcpConnection.cc:89-273 | after any run bytes with the kernel followed by the output buffer are the messages taken on, each whole, in order, once |
| ConnectionRuns.WriteInterestIsBacklog | src/TcpConnection.cc:107-161 | while connected or half closed: wanting to write, having a backlog and EPOLLOUT in the kernel mask are equivalent, EPOLLIN and EPOLLPRI are in it throughout, no epoll_ctl was refused |
| ConnectionRuns.CloseLeavesKernelInterest | src/TcpConnection.cc:276-285 | handleClose clears the mask and leaves the epoll entry as it was |
| ConnectionRuns.AfterClose | src/TcpConnection.cc:97-102 | a closed connection stays closed and sends nothing, and its epoll entry stays until connectDestroyed removes it for good |
| ConnectionRuns.CallbacksCount | src/TcpConnection.cc:112-153 | over any run high-water callbacks are the upward crossings of the mark, write-complete callbacks the steps that hand bytes over and leave none |
| ConnectionRuns.CallbacksAreQueued | src/TcpConnection.cc:117-152 | each counted callback is queued behind everything queued before, the high-water one with the new backlog, and nothing else queues one |
| ConnectionRuns.DrainBetweenHighWaters | src/TcpConnection.cc:146-153 | without a drain below the mark there is no second high-water callback |
| ConnectionRuns.CompleteMeansSent | src/TcpConnection.cc:248-257 | when a write-complete callback is queued every byte taken on is with the kernel |
| ConnectionLaws.SendLaw | src/TcpConnection.cc:89-162 | by return value and errno of write: a message is dropped whole by a closed connection, or by EPIPE or ECONNRESET on an idle output, and otherwise joins the stream whole, the part that write took on the wire |
| ConnectionLaws.SendOnError | src/TcpConnection.cc:122-134 | on an idle output EPIPE and ECONNRESET lose the byte, EWOULDBLOCK and any other error keep it |
| ConnectionLaws.ReadLaw | src/TcpConnection.cc:207-226 | data joins the unread input, end of stream closes, a failed read changes nothing |
| ConnectionLaws.WriteLaw | src/TcpConnection.cc:239-273 | the kernel gets exactly what write says it took, from the head of the backlog; only when none is left is writability given up and a due FIN sent |
| ConnectionLaws.StateLaw | src/TcpConnection.cc:165-205 | the state after each event |
| ConnectionLaws.DestroyLaw | src/TcpConnection.cc:196-205 | connectDestroyed deregisters in any state, and disconnects a connection that is up but not one that is half closed |
| ConnectionLaws.FinLaw | src/TcpConnection.cc:176-182 | which events send the FIN, and that the counters of the half-close theorems count what they are named for |
| ConnectionLaws.InboundIntegrity | src/TcpConnection.cc:207-214 | after any run what the user has taken, followed by the input buffer, is what the socket delivered, in order, once |
| ConnectionLaws.EverySendArrives | src/TcpConnection.cc:67-86 | after any run every message given to send() while connected has come to sendInLoop or is on its way: on the loop thread next, from other threads in lock order, each whole and once, and nothing else comes there |
| ConnectionLaws.OutboundIntegrity | src/TcpConnection.cc:89-162 | after any run the messages handed to sendInLoop that no closed connection and no EPIPE or ECONNRESET dropped are with the kernel or in the output buffer, in order |
| ConnectionLaws.TasksInOrder | src/EventLoop.cc:175-191 | everything queued for the connection runs once, in order; each close is counted once |
| HalfClose.HalfCloseOrdering | src/TcpConnection.cc:165-182 | if each shutdown that takes effect meets its condition, the FIN leaves at most once, after every byte taken on, with no message behind it |
| HalfClose.LoopThreadHalfClose | src/TcpConnection.cc:165-182 | in particular whenever send and shutdown are called on the connection's own loop thread |
| HalfClose.NoBytesBehindFin | src/TcpConnection.cc:239-263 | as long as nothing is violated a FIN that is out is the last thing the kernel gets |
| HalfClose.FinGoesOut | src/TcpConnection.cc:165-182 | a half-closed connection with nothing left to send and no part of a shutdown still to run has sent its FIN, exactly one if every shutdown met its condition |
| HalfCloseExact.LocalShutdownExact | src/TcpConnection.cc:165-182 | from any reachable state, shutdown on the loop thread is clean in every continuation iff SafeLocal |
| HalfCloseExact.ForeignShutdownExact | src/TcpConnection.cc:165-182 | from any reachable state, shutdown on another thread is clean in every continuation iff SafeForeign |
| HalfCloseExact.ForeignShutdownFinsTwice | src/TcpConnection.cc:258-261 | a run in which a one-byte backlog and a shutdown from another thread send two FINs |
| TcpConnections.TcpConnection.constructor | src/TcpConnection.cc:28-59 | a connection starts connecting, unregistered, with empty buffers |
| TcpConnections.TcpConnection.ConnectEstablished | src/TcpConnection.cc:185-193 | connected, tied and watched for reading |
| TcpConnections.TcpConnection.SendInLoop | src/TcpConnection.cc:89-162 | the code over the real buffer, channel and poller does what the step function says, to every field |
| TcpConnections.TcpConnection.DirectWrite | src/TcpConnection.cc:107-135 | writes straight to the socket only if nothing waits; faults only on a broken pipe or a reset |
| TcpConnections.TcpConnection.WarnHighWater | src/TcpConnection.cc:144-153 | queues the high-water callback exactly when this append crosses the mark, with the new backlog |
| TcpConnections.TcpConnection.Backlog | src/TcpConnection.cc:141-161 | appends what is left and asks for writability if it has not yet |
| TcpConnections.TcpConnection.Send | src/TcpConnection.cc:67-86 | sends at once on the loop thread, queues a copy elsewhere, does nothing unless connected |
| TcpConnections.TcpConnection.Shutdown | src/TcpConnection.cc:165-174 | changes state at once, shuts down on the loop thread or queues that part |
| TcpConnections.TcpConnection.ShutdownInLoop | src/TcpConnection.cc:176-182 | sends the FIN unless writability is awaited |
| TcpConnections.TcpConnection.HandleRead | src/TcpConnection.cc:207-226 | data joins the input buffer and is announced, end of stream closes, an error changes nothing |
| TcpConnections.TcpConnection.HandleWrite | src/TcpConnection.cc:239-273 | hands over what the kernel takes from the head of the backlog and finishes when none is left |
| TcpConnections.TcpConnection.FinishWriting | src/TcpConnection.cc:248-261 | stops watching for writability, queues the completion callback, sends the FIN that is due |
| TcpConnections.TcpConnection.HandleClose | src/TcpConnection.cc:276-285 | disconnected, mask cleared, epoll entry kept |
| TcpConnections.TcpConnection.ConnectDestroyed | src/TcpConnection.cc:196-205 | deregistered, whatever state it was in |
| TcpConnections.TcpConnection.RunTask | src/EventLoop.cc:185-188 | runs the head of the batch on this connection |
| Echo.EchoServer.HandleMessage | example/testserver.cc:47-54 | empties the input buffer into one send |
| Echo.EchoIsARun | example/testserver.cc:47-54 | an arrival at the echo server is a read, a retrieval of the whole input and a send of it, so all that holds of runs of a connection holds of echo runs |
| Echo.FaultIsPipeOrReset | src/TcpConnection.cc:122-134 | the fault that the echo theorems speak of is EPIPE or ECONNRESET on an idle output |
| Echo.EchoEndToEnd | example/testserver.cc:47-54 | until a write faults bytes with the kernel are a prefix of bytes received, and while connected the output buffer is the difference |
| Echo.EchoPrefixExact | src/TcpConnection.cc:122-134 | a connection that is up echoes a prefix in every fault-free continuation iff no write has faulted so far |
| Echo.FaultedWriteBreaksEcho | src/TcpConnection.cc:122-134 | from any fault-free run, any chunk lost to a faulted write and any next chunk, written in full, that begins with another byte break the prefix |
| Names.DecimalInjective | src/TcpServer.cc:76 | different numbers are rendered differently |
| Names.DecimalValue | src/TcpServer.cc:76 | the rendering consists of digits that denote the number, without leading zeros |
| Names.SnprintfLaw | src/InetAddress.cc:29 | what does not fit the buffer is cut off at the end, all bytes but the terminator used |
| Names.IpPortFits | src/InetAddress.cc:22-31 | a dotted quad and a port fit the 64-byte buffer in full |
| Names.NameFits | src/TcpServer.cc:75-78 | every positive int id is rendered untruncated |
| Names.NamesDistinct | src/TcpServer.cc:75-78 | two ids of one server never get the same name |
| Server.RoundRobin | src/EventLoopThreadPool.cc:37-52 | the k-th call returns I/O loop k mod n, or the base loop if there are none |
| Server.EventLoopThreadPool.Start | src/EventLoopThreadPool.cc:17-34 | one loop per thread, in order |
| Server.EventLoopThreadPool.GetNextLoop | src/EventLoopThreadPool.cc:37-52 | the loop at the cursor, and the cursor moved on with wrap-around |
| Server.RegisterInserts | src/TcpServer.cc:101 | the map assignment displaces no connection |
| Server.EraseRemovesOnlyItself | src/TcpServer.cc:125 | an erase by name, however late, removes its own connection or nothing |
| Server.TcpServer.NewConnection | src/TcpServer.cc:71-113 | a new number, a name not in the map, the next loop in turn, the connection owned by the server and handed to its loop: established in place on the base loop, through the queue of any other |
| Server.TcpServer.RemoveConnection | src/TcpServer.cc:115-118 | removed in place on the base loop, through the base loop's queue from any other |
| Server.TcpServer.RemoveConnectionInLoop | src/TcpServer.cc:120-128 | its own entry is gone, every other stands, and the destroy is queued on its own loop, the base loop included |
| Projection.AcceptIsNewConnection | src/TcpServer.cc:71-113 | the lifecycle's accept does to server, connections and queues what newConnection does |
| Projection.RemoveIsRemoveInLoop | src/TcpServer.cc:120-128 | likewise for removeConnectionInLoop |
| Projection.CloseAsksRemoval | src/TcpServer.cc:115-118 | a close asks the server what removeConnection asks it |
| Projection.EventsProject | src/TcpConnection.cc:67-285 | every event of a connection is one lifecycle action or nothing, in state, mask and registration; for a send that starts to ask for writability the loop must not be in its poll |
| LifecycleSteps.InvStep | src/TcpServer.cc:71-128 | every poll, accept, callback, functor, user call and release, on any thread, keeps the invariant of all connections |
| LifecycleTheorems.NoDanglingRegistration | src/TcpConnection.cc:185-205 | whatever an epoll set or fd map points to is live, on its own loop and fd, and kept by the server or a queued destroy; no tie lock and no epoll_ctl ever failed |
| LifecycleTheorems.OneAddOneDel | src/EPollPoller.cc:108-123 | each connection is added once and dropped at most once, exactly once each by the time it is freed |
| LifecycleTheorems.ClosesAreAnswered | src/TcpServer.cc:115-128 | closes run are destroys run plus removals and destroys still queued |
| LifecycleRepeat.CloseCanRepeat | src/TcpConnection.cc:276-285 | a closed connection still registered when its loop polls can be reported and closed again |
| LifecycleRepeat.BaseLoopNeverRepeats | src/TcpServer.cc:115-128 | a closed connection on the base loop is deregistered, and held by nobody, by the time that loop polls again |
| LifecycleRepeat.RepeatExactlyOffBase | src/TcpServer.cc:115-128 | from any reached state a connection that is up can be closed again in a later poll iff its loop is not the base loop |
| LifecycleRepeat.RepeatedCloseHappens | src/TcpConnection.cc:276-285 | with any number of I/O loops a run from the start closes the first connection in two polls |
| LifecycleTheorems.TeardownIsPrivate | src/TcpServer.cc:120-128 | a teardown functor changes nothing of any other connection, under fd reuse too |
| LifecycleTheorems.DestroyedAfterEstablished | src/EventLoop.cc:103-134 | connectDestroyed finds a connection established once, closed and out of the map; connectEstablished a new one in it |
| LifecycleTheorems.QuiescentAgreement | src/TcpServer.cc:71-128 | with nothing running and nothing queued, a connection is in the map iff it is registered, iff it is up, on one loop and fd only; every map entry is such a connection, and the others are held by nobody |
| LifecycleTheorems.DispatchStability | src/EventLoop.cc:69-84 | from the poll to the end of the dispatch loop every listed connection stays registered and alive |
| LifecycleTheorems.DispatchFindsItAlive | src/Channel.cc:47-67 | along any run the tie lock taken at dispatch succeeds, and the callbacks made are those of the reported mask |
| LifecycleTheorems.LostDispatch | src/Channel.cc:49-56 | a dispatch that finds the connection gone makes no callback and is counted |
| LifecycleTheorems.AcceptDisplacesNobody | src/TcpServer.cc:101 | along any run a new connection takes nobody's place in the map |
| LifecycleTheorems.ConnectionsDealtInTurn | src/EventLoopThreadPool.cc:37-52 | along any run the k-th connection lives on the k-th loop in turn |

## Left out

- EventLoops.EventLoop.Loop: the loop runs for as many rounds as it is given answers of epoll_wait; as their number is arbitrary that is every finite part of a loop that never ends, which as a whole is not a method here.
- EventLoops.EventLoop.LetRun: its body is one behaviour its contract allows; the contract, which is all that callers see, is justified by `OthersKeepLoopRely` and `AllKeepOtherRely`.
- Server.TcpServer.NewConnection: the new connection is represented by its loop and fd, what runInLoop runs in place is reported in `establishNow`, and getsockname and the setting of callbacks are not modelled.
- Server.TcpServer.RemoveConnection: which thread calls it is a parameter.
- HalfCloseExact.LocalShutdownExact: the look at `state_` and the store to it in shutdown() are one action, also on other threads; a second thread, or a close on the loop thread, that comes between the two is not modelled.
- ConnectionRuns.CallbacksCount: the high-water mark and the callbacks are fixed for the life of a connection.
- Names.NameFits: ids stop at INT_MAX; the overflow of `nextConnId_` is not modelled.
- In the lifecycle the bytes of a connection are abstracted to outcomes of its handlers (end of stream, drained, neither) and to `UserBacklog`; `Connection` has them in full.
- In the lifecycle a functor being run is not counted as an owner after it has been taken off its batch, and a connection may be freed any time after its last owner is gone.
- In the lifecycle the eventfd is not repeated; a loop may return from poll at any time.
- "Exactly one DOWN callback" is not claimed: with separate I/O loops handleClose can run again in a later poll (`RepeatExactlyOffBase`, `RepeatedCloseHappens`), and on any loop one report can close twice (`CloseThenRead`).
- Server teardown (src/TcpServer.cc:42-52) and the destruction of an EventLoopThread: every result is for a live server.
- The lifetime of the raw `this` in functors queued by send() and shutdown() on other threads: the caller is taken to keep the connection until they have run, and they are not counted as owners.
- Listening, accept and socket options (src/Socket.cc, src/Acceptor.cc): only "accept returns an fd that is not open" is used.
- inet_addr and inet_ntop: only "a dotted quad has at most 15 characters" is used.
- Logger, Timestamp, CurrentThread, thread start-up, LOG_FATAL exits and exceptions.
- The doubling of `events_` in poll, getters and setters, getAllLoops.
- Overflow of size_t in buffer sizes: lengths are natural numbers.
