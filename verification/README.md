# LTMuduo: a verified model of the reactor core

This project models the parts of LTMuduo where bytes, wakeups and lifetimes can
go wrong, and proves that they do not, or says exactly when they do.

LTMuduo runs one event loop per thread. A base loop accepts connections and
hands each one, round robin, to an I/O loop. A connection owns a socket, two
byte buffers and a channel registered with its loop's epoll poller; threads talk
to each other only by queueing functors on a loop and writing its eventfd.

Check everything with `dafny verify dfyconfig.toml` (Dafny 4.11).

## How the pieces fit

| file | models | form |
|---|---|---|
| Buffer.dfy | include/Buffer.h, src/Buffer.cc | class over an array, growing and compacting in place; run-level space bound |
| Registration.dfy | the kNew/kAdded/kDeleted machine | pure state, with a kernel reference model that refuses illegal calls |
| EPollPoller.dfy | Channel, EPollPoller, Poller | classes with the poller's map, the epoll set and the active list |
| ConnectionSpec.dfy | src/TcpConnection.cc, src/Channel.cc | one connection as functions on its state and event history |
| ConnectionReference.dfy | the same connection without mechanism | what the outside sees: bytes owed, the wire, what the user is told; every run of ConnectionSpec is one of its runs |
| ConnectionWiring.dfy | status, unsent bytes and epoll interest | invariant over every run |
| ConnectionCallbacks.dfy | order of user callbacks | an automaton, and the same law on the callback sequence |
| ConnectionLedger.dfy | bytes, posts and half-close | an outside observer that folds the history |
| ConnectionTally.dfy | the bytes and posts of a connection in any state | the part of the observer's books that no order of events upsets |
| ConnectionOffThread.dfy | send and shutdown called from other threads | transition system of one connection, its loop thread and any number of other threads |
| OffThreadLaws.dfy | which laws survive that | one theorem per law, each with its exact condition |
| OffThreadFailures.dfy | what goes wrong otherwise | the ways to be overtaken, and runs that lead there |
| TcpConnection.dfy | TcpConnection | class on Buffer, Channel and EPollPoller; each method refines its function in ConnectionSpec |
| LoopProtocol.dfy | queue, flags and eventfd of a loop | transition system over any number of threads |
| EventLoop.dfy | EventLoop | class whose methods take the protocol's steps |
| Naming.dfy | connection names | decimal printing and truncation |
| ThreadPool.dfy | EventLoopThreadPool | class, and the balance of its choice |
| Lifecycle.dfy | TcpServer with all loops and connections | transition system over the base loop and any number of I/O loops |
| LifecycleInvariant.dfy, LifecycleSteps.dfy | the invariant and its proof, step by step | lemmas |
| LifecycleSafety.dfy | what the invariant means | main theorems |
| LifecycleHistory.dfy | what a run amounts to | the life of every connection as the reference tells it, every loop as a queue, every event as three stages |
| TcpServer.dfy | TcpServer | class that takes the server steps of Lifecycle and posts to EventLoop objects |

The layers compose. The class `TcpConnection` is proved to move exactly as the
functions of `ConnectionSpec`; those functions are proved to do what the plain
reference does, which answers the kernel and the user without channels, buffers or a
history (`RunIsAsSeen`); the laws of the `Connection...` modules hold for every run
of them; and the connections inside a `Lifecycle.World` are states of those same
functions, so reference and laws hold for every connection under every interleaving
(`EveryConnectionIsAsSeen`, `EveryConnectionIsLawful`, `EveryoneSpeaksByProtocol`).

What the kernel answers (how much a `write` takes, what `readv` delivers, which
events a poll reports) and what user callbacks do is nondeterministic: parameters
of the methods, arguments of the steps. A `write` takes as much as there is room
for, or fails with one of the errnos the code distinguishes; a poll reports any
set of watched descriptors with any event mask.

## Assumptions

- In the modules about runs of one connection and about the whole server, `send`
  and `shutdown` are called on the connection's loop thread, as in
  example/testserver.cc:48-53. `ConnectionOffThread` and `OffThreadLaws` drop this
  for one connection and say of each law whether, or exactly when, it still holds.
  There messages are values and the connection outlives what is queued for it; the
  source queues raw pointers (src/TcpConnection.cc:74-79).
- The server object is not destroyed.
- Loops are already running; `NoLostWakeup` states what must hold of a queue that
  was filled before `loop()` began.
- Connection ids stay within `int`, and the printed listening address has at most
  51 characters ("255.255.255.255:65535" has 21). `NamesDistinctIff` shows that
  this is exactly the bound under which names are distinct.

## Laws that fail, and exactly when

- The callback protocol fails exactly when the close callback of one event is
  followed by a read that does not fail, which takes the event mask HUP and PRI
  without IN. Over every run of one connection: `ProtocolIffUntangled`, with the
  concrete run `AmbiguousMaskBreaksProtocol`. For each connection of the whole
  server, over every interleaving: `EveryoneSpeaksByProtocol`. Lifetime safety does not need that mask excluded: the model interleaves other threads
  between the callbacks of one event (`HandlerIsGuarded`, `NeverCrashes`).
- With calls from other threads, the bytes and the posts stay exact whatever
  overtakes what: `OffThreadConserves`. The other laws of a connection fail, each
  under its own condition.
  - Unsent bytes are stranded exactly when a `shutdown()` sets the status after the
    connection was closed: `OffThreadNeverStrandedIff`.
  - A disconnecting connection stops writing what is unsent, or is half-closed at
    the wrong time, exactly when that happens with bytes unsent:
    `OffThreadGracefulIff`.
  - The history as a whole (nothing accepted after `shutdown()` or the offline
    callback, one half-close, and that only when everything has been written) is
    unlawful exactly when some call is overtaken: `OffThreadLawfulIff`. A queued send
    runs after `shutdown()` and is taken (`ShutdownOvertakesSend`); the draining
    handleWrite half-closes first, and the queued message is refused with EPIPE and
    lost (`DrainOvertakesSend`), or the queued shutdownInLoop shuts the write side a
    second time (`DrainOvertakesShutdown`); the peer closes with bytes unsent, before
    the queued shutdownInLoop shuts the write side (`CloseOvertakesShutdownInLoop`)
    or before the status is set (`CloseOvertakesShutdown`). `CallsCanBeOvertaken` and
    `CloseCanOvertake` are runs that lead there.
- Wakeups are lost exactly when a functor was queued on the loop thread before
  `loop()` and nobody has written the eventfd: `NoLostWakeup`,
  `UncoveredStartBlocks`.
- A `quit()` is forgotten exactly when the loop thread has not yet passed the reset
  at the start of `loop()`: `QuitIsKeptIff`, `QuitBeforeLoopIsForgotten`.
- Giving up all interest makes the kernel forget the descriptor exactly when the
  channel is added; a channel that is new or deleted is added instead, with an
  empty mask: `GivingUpForgetsIff`. So repeated `disableAll` calls alternate
  (`DisableAllAlternates`), and the very first one watches a channel that was never
  registered (`FirstDisableAllWatches`), which is what `Acceptor::~Acceptor` does
  when `listen()` was never called.

## Where comments and code disagree

- include/Buffer.h:57 comments the else branch of `retrieve` as `len ==
  readableBytes()`; the code takes it for every larger `len` too and empties the
  buffer. The model follows the code.
- src/EPollPoller.cc:79 says that active channels need not be in the poller's
  map. They always are: `Pollers.EPollPoller.Poll` and `ActiveListIsValid`.

## Model

| member | source | states |
|---|---|---|
| Buffers.FreshLayout | include/Buffer.h:23-27 | a new buffer has nothing to read and exactly the requested room |
| Buffers.AfterRetrieve | include/Buffer.h:51-67 | retrieving frees min(len, readable) bytes and never shrinks the storage |
| Buffers.AfterEnsure | include/Buffer.h:81-87 | afterwards at least len bytes are writable, and as many are readable as before |
| Buffers.AfterAppend | include/Buffer.h:89-94 | exactly len more bytes are readable |
| Buffers.AfterRead | src/Buffer.cc:22-35 | exactly n more bytes are readable, through the overflow path too |
| Buffers.OfferedRoom | src/Buffer.cc:13-20 | each readFd offers the kernel at least 65536 bytes, and uses the stack block exactly when the tail is shorter than it |
| Buffers.CompactionMovesDown | include/Buffer.h:121-142 | compaction is entered from ensureWritableBytes only with readerIndex above kCheapPrepend, and keeps the size |
| Buffers.MakesRoomCheaply | include/Buffer.h:81-142 | nothing moves while the tail has room; the storage stays when the freed head makes up for the tail; else it ends right behind the new bytes |
| Buffers.GrowthBound | include/Buffer.h:121-127 | storage grows only when the content outgrows the initial room, and then to at most the limit for that content |
| Buffers.SpaceBound | include/Buffer.h:81-94 | over every run of appends, reads and retrieves: as long as the peak fits the initial room the size never changes, else it stays within 2 * peak + kCheapPrepend - 2 (nine for a peak of one) |
| Buffers.SpaceBoundIsSharp | include/Buffer.h:121-127 | the limit is exact: for every initial size and every peak some run has that peak and reaches it |
| Buffers.Buffer.constructor | include/Buffer.h:23-27 | an empty queue with the fresh layout |
| Buffers.Buffer.Retrieve | include/Buffer.h:51-61 | removes exactly min(len, readable) bytes from the head |
| Buffers.Buffer.RetrieveAll | include/Buffer.h:63-67 | empties the queue and resets both indices |
| Buffers.Buffer.RetrieveAsString | include/Buffer.h:74-79 | the bytes returned followed by the bytes left are the bytes there were |
| Buffers.Buffer.RetrieveAllAsString | include/Buffer.h:70-73 | returns the whole content and leaves nothing |
| Buffers.Buffer.EnsureWritableBytes | include/Buffer.h:81-87 | makes room without changing the content |
| Buffers.Buffer.MakeSpace | include/Buffer.h:121-142 | growing or compacting preserves the content byte for byte |
| Buffers.Buffer.SlideDown | include/Buffer.h:136-138 | the overlapping forward copy moves the content intact |
| Buffers.Buffer.Append | include/Buffer.h:89-94 | adds exactly the given bytes at the tail |
| Buffers.Buffer.ReadFd | src/Buffer.cc:7-37 | for every tail length and every count the iovecs allow, the content grows by exactly the delivered bytes in order; on error nothing changes and errno is saved |
| Buffers.Buffer.WriteFd | src/Buffer.cc:39-47 | offers the whole content and leaves the buffer alone |
| Registrations.Apply | src/EPollPoller.cc:81-126 | a channel marked deleted never has interest left |
| Registrations.RunIsLegal | src/EPollPoller.cc:81-126 | any sequence of channel operations issues only epoll_ctl calls the kernel accepts, and for every mapped channel the kernel's effective mask is events_ |
| Registrations.InterestIsAsAsked | include/Channel.h:45-51 | over every run, each flag is in events_ exactly when the last operation about it asked for it, and the channel is mapped exactly when the last operation was not a removal |
| Registrations.GivingUpForgetsIff | src/EPollPoller.cc:87-104 | a change that leaves no interest ends with the descriptor unwatched if and only if the channel was added; otherwise it is watched with an empty mask |
| Registrations.DisableAllAlternates | src/EPollPoller.cc:87-104 | after any run, n calls of disableAll leave the descriptor unwatched if and only if n is odd and the channel was added or n is even and it was not |
| Registrations.FirstDisableAllWatches | src/Acceptor.cc:35-39 | disableAll on a channel that was never registered registers it, with an empty mask |
| Registrations.DisablingTwiceWatchesAgain | src/EPollPoller.cc:87-95 | a second disableAll registers the descriptor again with an empty mask |
| Pollers.Channel.constructor | src/Channel.cc:12-21 | a channel starts unregistered, without interest and untied |
| Pollers.Channel.SetInterest | include/Channel.h:47-51 | pushes the changed interest to the poller: map and kernel agree with it, other descriptors are untouched, no call is refused |
| Pollers.Channel.Unregister | src/Channel.cc:46-49 | the descriptor disappears from the map and from the kernel |
| Pollers.EPollPoller.UpdateChannel | src/EPollPoller.cc:81-108 | restores agreement of map, kernel and index after a change of interest, by one accepted call |
| Pollers.EPollPoller.RemoveChannel | src/EPollPoller.cc:111-126 | removes the channel from map and kernel and no other |
| Pollers.EPollPoller.Update | src/EPollPoller.cc:140-161 | a call is refused exactly when ADD meets a present or MOD/DEL an absent descriptor |
| Pollers.EPollPoller.HasChannelIffIndexed | src/Poller.cc:10-14 | hasChannel is true of exactly the live channels of this poller whose index is not new, and false of every other channel, also one with the same descriptor; the kernel watches exactly the added ones |
| Pollers.EPollPoller.FillActiveChannels | src/EPollPoller.cc:129-137 | lists in order the registered channel of each reported descriptor with its events |
| Pollers.EPollPoller.Poll | src/EPollPoller.cc:36-70 | reports only registered channels, changes no other channel's events, and doubles the event list exactly when it was full |
| Pollers.EPollPoller.Forget | src/Channel.cc:23-26 | the destructor of a channel unregisters nothing, so only an unregistered channel may die; then no entry of the poller points to it |
| ConnectionWiring.ActWired | src/TcpConnection.cc:64-82 | user code can only move a connected connection to disconnecting, and does nothing to one that is not up |
| ConnectionWiring.EstablishWired | src/TcpConnection.cc:165-173 | an established connection is up and registered for reading |
| ConnectionWiring.CloseWired | src/TcpConnection.cc:246-255 | a closed connection is disconnected and has given up all interest |
| ConnectionWiring.ReadWired | src/TcpConnection.cc:187-207 | a read closes the connection exactly when it delivers nothing |
| ConnectionWiring.WriteWired | src/TcpConnection.cc:209-243 | writing never changes the status and keeps the interest matched to the unsent bytes |
| ConnectionWiring.RunWired | src/TcpConnection.cc:64-255 | status, interest and unsent bytes belong together after every run |
| ConnectionWiring.NeverStranded | src/TcpConnection.cc:99-140 | while the connection is up, bytes are unsent exactly when the channel is writing, exactly when the kernel watches for EPOLLOUT |
| ConnectionWiring.DisconnectedIsFinal | src/TcpConnection.cc:246-255 | over every run: a disconnected connection never comes back, never regains interest, and keeps its unsent bytes untouched |
| ConnectionReference.RunIsAsSeen | src/TcpConnection.cc:64-255 | over every run, with every answer of the kernel and every mask: status, unsent bytes, input, the bytes on the wire, messages taken and lost, all callbacks and posts in order, and the number of shutdowns are those of the reference |
| ConnectionReference.DirectWriteKeepsTheRest | src/TcpConnection.cc:99-140 | a direct write that takes n bytes puts exactly those on the wire and keeps exactly the others, watching for writability if there are any |
| ConnectionReference.FlushKeepsTheRest | src/TcpConnection.cc:209-217 | a flush takes exactly what the kernel takes from the head of outputBuffer_, and does nothing otherwise |
| ConnectionReference.WritesLast | src/Channel.cc:74-102 | whatever else an event brings, writability is used last, with whatever is unsent then, and only if the event brings it |
| ConnectionReference.EventFlushes | src/Channel.cc:96-102 | with a failed read and no hang-up, an event with EPOLLOUT flushes what the kernel takes, with any other flags |
| ConnectionReference.CrossingIsAnnouncedIff | src/TcpConnection.cc:129-136 | a message queued behind others announces the mark if and only if the unsent length was below the mark and now is not |
| ConnectionReference.ShutdownTakesEffect | src/TcpConnection.cc:145-154 | over every run after shutdown() on a connected connection: it is disconnecting or disconnected, takes and loses no message, and the shutdown took effect once |
| ConnectionReference.DestroySeen | src/TcpConnection.cc:176-185 | connectDestroyed tells the user offline exactly if the connection was still connected, and leaves the channel unregistered |
| ConnectionCallbacks.TalkIffProtocol | src/TcpConnection.cc:165-255 | the automaton accepts a history exactly when its callbacks are a prefix of online, message*, offline |
| ConnectionCallbacks.DispatchIsHeard | src/Channel.cc:70-103 | which callbacks one dispatch makes, in which order, for every mask and every read result |
| ConnectionCallbacks.DispatchProtocol | src/Channel.cc:74-94 | one dispatch to a live connection breaks the protocol if and only if the mask has HUP and PRI without IN and the read succeeds |
| ConnectionCallbacks.DispatchReports | src/TcpConnection.cc:246-255 | the number of close reports of a dispatch, and that a live connection is disconnected exactly when there is one |
| ConnectionCallbacks.StageSpoken | src/Channel.cc:74-102 | each of the three callbacks of an event, in its turn, keeps the protocol if and only if it is not a successful read after a close |
| ConnectionCallbacks.CallbackProtocol | src/Channel.cc:70-103 | over every run without such a read the user hears a prefix of online, message*, offline, and the close is reported once, after which the kernel is quiet |
| ConnectionCallbacks.ProtocolIffUntangled | src/Channel.cc:74-94 | over every run: the protocol holds if and only if no dispatch combines HUP and PRI without IN with a read that does not fail |
| ConnectionCallbacks.AmbiguousMaskBreaksProtocol | src/Channel.cc:74-94 | a concrete run that breaks the protocol |
| ConnectionLedger.DirectKept | src/TcpConnection.cc:99-112 | after a direct write of any length the bytes are accounted for |
| ConnectionLedger.EnqueueKept | src/TcpConnection.cc:126-141 | queueing the rest of a message keeps order, announces a crossing of the mark and keeps the books balanced |
| ConnectionLedger.SendKept | src/TcpConnection.cc:85-142 | every send, with every answer of the kernel, keeps the books balanced |
| ConnectionLedger.WriteKept | src/TcpConnection.cc:209-243 | every flush keeps the books balanced and does a deferred half-close when it drains the queue |
| ConnectionLedger.ReadKept | src/TcpConnection.cc:187-207 | every read keeps the books balanced, whatever the message callback does |
| ConnectionLedger.ByteStreamConserved | src/TcpConnection.cc:85-142 | after every run: accepted messages == bytes the kernel took ++ outputBuffer_, and bytes read == bytes consumed ++ inputBuffer_ |
| ConnectionLedger.PostsAreExact | src/TcpConnection.cc:99-136 | one write-complete for each write that left nothing accepted unwritten, one high-water notification for each upward crossing, none otherwise; at every write-complete everything accepted has been written |
| ConnectionLedger.GracefulHalfClose | src/TcpConnection.cc:145-162 | shutdownWrite is called at most once, only after shutdown() and when every accepted byte has been written; after shutdown() nothing is accepted |
| ConnectionLedger.HalfCloseNotForgotten | src/TcpConnection.cc:218-231 | after shutdown() the write side is shut exactly when nothing is left to send |
| ConnectionLedger.HighWaterIsEdgeTriggered | src/TcpConnection.cc:129-136 | between two notifications the queue was at or above the mark and then strictly below it |
| ConnectionLedger.FaultDropsWhole | src/TcpConnection.cc:113-126 | a message hit by EPIPE or ECONNRESET on the direct path is dropped whole and changes nothing else |
| ConnectionLedger.SendTakesWhole | src/TcpConnection.cc:85-142 | every other message is accepted whole |
| ConnectionOffThread.QueuedSendLawfulIff | src/TcpConnection.cc:72-80 | a queued sendInLoop is lawful if and only if no shutdown() overtook it |
| ConnectionOffThread.OffThreadLawfulIff | src/TcpConnection.cc:64-82 | with any number of threads calling send and shutdown, over every interleaving: the history is lawful if and only if no queued call was overtaken, each overtaking being a guard on the state in which the call goes on |
| ConnectionTally.StepTallied | src/TcpConnection.cc:64-255 | every handler and every action of user code, in any state of the connection, keeps bytes and posts balanced |
| OffThreadLaws.OffThreadConserves | src/TcpConnection.cc:64-162 | with any number of threads calling send and shutdown, over every interleaving and whatever is overtaken: messages taken == bytes the kernel took ++ outputBuffer_, bytes read == bytes consumed ++ inputBuffer_, and both kinds of posts are exact |
| OffThreadLaws.OffThreadNeverStrandedIff | src/TcpConnection.cc:145-154 | over every interleaving, unsent bytes are watched for at every moment if and only if no shutdown sets the status after the close |
| OffThreadLaws.OffThreadGracefulIff | src/TcpConnection.cc:156-162 | over every interleaving, a disconnecting connection writes what is unsent and is half-closed exactly when nothing is, unless shutdownInLoop is still to come, at every moment if and only if no shutdown sets the status after a close with bytes unsent |
| OffThreadFailures.CallsCanBeOvertaken | src/TcpConnection.cc:64-82 | a possible run in which both calls are queued behind a deferred half-close |
| OffThreadFailures.ShutdownOvertakesSend | src/TcpConnection.cc:145-154 | a send queued before the shutdown is taken after it |
| OffThreadFailures.CloseOvertakesShutdown | src/TcpConnection.cc:145-154 | a close between the test and the set of shutdown() leaves the closed connection disconnecting, stranded without interest |
| OffThreadFailures.CloseOvertakesShutdownInLoop | src/TcpConnection.cc:156-162 | a close with bytes unsent before the queued shutdownInLoop: the write side is shut although not everything accepted is written |
| OffThreadFailures.CloseCanOvertake | src/TcpConnection.cc:145-154 | possible runs to both states |
| OffThreadFailures.DrainOvertakesSend | src/TcpConnection.cc:218-231 | the draining handleWrite half-closes before the queued send runs; every answer the kernel can then give loses the message |
| OffThreadFailures.DrainOvertakesShutdown | src/TcpConnection.cc:218-231 | the draining handleWrite half-closes, and the queued shutdownInLoop does it again |
| TcpConnections.TcpConnection.constructor | src/TcpConnection.cc:25-56 | a new connection is connecting, with empty buffers and an unregistered channel |
| TcpConnections.TcpConnection.SendNow | src/TcpConnection.cc:64-82 | on the loop thread it refines the send of ConnectionSpec; on another it changes nothing and queues the message exactly when connected |
| TcpConnections.TcpConnection.SendInLoop | src/TcpConnection.cc:85-142 | the code with nwrote, remaining and faultError refines the sendInLoop whose laws are proved |
| TcpConnections.TcpConnection.Enqueue | src/TcpConnection.cc:126-141 | refines the queueing branch, on the real buffer and channel |
| TcpConnections.TcpConnection.ShutdownNow | src/TcpConnection.cc:145-154 | on the loop thread it refines shutdown; on another it changes only the status and queues shutdownInLoop, exactly when connected |
| TcpConnections.TcpConnection.ShutdownInLoop | src/TcpConnection.cc:156-162 | refines shutdownInLoop |
| TcpConnections.TcpConnection.ConnectEstablished | src/TcpConnection.cc:165-173 | refines connectEstablished and ties the channel |
| TcpConnections.TcpConnection.ConnectDestroyed | src/TcpConnection.cc:176-185 | refines connectDestroyed; afterwards neither the poller nor the kernel knows the descriptor |
| TcpConnections.TcpConnection.HandleRead | src/TcpConnection.cc:187-207 | refines handleRead on the real input buffer |
| TcpConnections.TcpConnection.HandleWrite | src/TcpConnection.cc:209-243 | refines handleWrite on the real output buffer |
| TcpConnections.TcpConnection.HandleClose | src/TcpConnection.cc:246-255 | refines handleClose |
| TcpConnections.TcpConnection.HandleEvent | src/Channel.cc:52-67 | nothing happens if a tied object is gone; otherwise the event is dispatched |
| TcpConnections.TcpConnection.HandleEventWithGuard | src/Channel.cc:70-103 | refines the dispatch of one event mask, and never gets a call refused or touches another descriptor |
| LoopProtocol.StepSafe | src/EventLoop.cc:65-155 | every atomic step of every thread keeps the wakeup invariant |
| LoopProtocol.NoLostWakeup | src/EventLoop.cc:115-155 | over every interleaving of any number of threads, a loop that can block in poll has no work and no quit request, or its eventfd is readable or about to be written; this holds if and only if what was queued before loop() is covered |
| LoopProtocol.UncoveredStartBlocks | src/EventLoop.cc:128-131 | a functor queued on the loop thread before loop() is slept on |
| LoopProtocol.QuitBeforeLoopIsForgotten | src/EventLoop.cc:65-72 | loop() resets quit_, so an earlier quit() is lost |
| LoopProtocol.QuitIsKeptIff | src/EventLoop.cc:65-98 | a quit request survives every interleaving if and only if the loop thread is past the reset |
| LoopProtocol.WorkIsPickedUp | src/EventLoop.cc:74-83 | over every interleaving: what was pushed up to any moment between the return of a poll and the swap has been executed, in order, when the loop polls again or has ended |
| LoopProtocol.OnlyTheseChange | src/EventLoop.cc:65-189 | which action sets or clears quit_ and callingPendingFunctors_, which adds one to the eventfd and which empties it; no other action does |
| LoopProtocol.QuitIsObeyed | src/EventLoop.cc:90-98 | over every interleaving after a quit of a running loop by any thread, the loop thread has left after as many moves as there was work and pushes arrived |
| LoopProtocol.WokenIsDrained | src/EventLoop.cc:136-144 | over every interleaving, a woken poll is followed by the swap only after the eventfd has been emptied |
| LoopProtocol.ExactlyOnceInOrder | src/EventLoop.cc:173-189 | over every interleaving: executed ++ rest of the batch ++ queue == history of pushes |
| LoopProtocol.BatchOnlyShrinks | src/EventLoop.cc:178-186 | nothing any thread does adds to a running batch |
| LoopProtocol.BatchEnds | src/EventLoop.cc:178-188 | over every interleaving: as many moves as the batch is long execute exactly the batch, and one more leaves it, so a functor that requeues itself cannot keep it from ending |
| LoopProtocol.AtMostOneMoreSwap | src/EventLoop.cc:72-98 | once quit_ is set in a running loop at most one more batch is swapped out |
| LoopProtocol.QuitMovesToExit | src/EventLoop.cc:72-84 | with quit_ set every move of the loop brings the exit closer and nothing else moves it away |
| LoopProtocol.ExitIsBounded | src/EventLoop.cc:65-98 | over every interleaving: with quit_ set the loop thread makes at most as many moves as its stages, batch and queue and the pushes still to come, and has ended by then |
| LoopProtocol.ExitIsFinal | src/EventLoop.cc:72-86 | over every interleaving from the last swap on: only the rest of that batch is executed, and whatever is pushed stays queued |
| EventLoops.EventLoop.Wakeup | src/EventLoop.cc:147-155 | adds one to the eventfd, which is readable afterwards, also when the write fails on a saturated counter |
| EventLoops.EventLoop.HandleRead | src/EventLoop.cc:136-144 | empties the eventfd and nothing else |
| EventLoops.EventLoop.Quit | src/EventLoop.cc:90-98 | sets quit_ and wakes the loop exactly from other threads |
| EventLoops.EventLoop.QueueInLoop | src/EventLoop.cc:115-133 | the functor is last in the queue; from another thread or during a batch the eventfd is readable afterwards, and else it is untouched |
| EventLoops.EventLoop.RunInLoop | src/EventLoop.cc:102-112 | calls the functor at once on the loop thread, and queues it and wakes the loop otherwise |
| EventLoops.EventLoop.DoPendingFunctors | src/EventLoop.cc:173-189 | executes exactly the queue at the swap, in order; what is pushed meanwhile is queued in order and the eventfd is readable; quit_ is set exactly if it was or a functor asks for it |
| Naming.DecimalRoundTrip | src/TcpServer.cc:73 | printing an id in decimal loses nothing |
| Naming.NothingClipped | src/TcpServer.cc:72-75 | with an address of at most 51 characters the 64-byte buffer never truncates a name |
| Naming.NamesDistinctIff | src/TcpServer.cc:72-75 | names are distinct for all ids an int can hold if and only if the address has at most 51 characters |
| Naming.LongAddressCollides | src/TcpServer.cc:72-75 | two ids with the same name for every longer address |
| ThreadPools.CursorFollows | src/EventLoopThreadPool.cc:42-47 | the wrapping cursor is the number of choices made, modulo the number of loops |
| ThreadPools.Balanced | src/EventLoopThreadPool.cc:37-50 | the round-robin loads of two loops differ by at most one for every number of connections |
| ThreadPools.EventLoopThreadPool.Start | src/EventLoopThreadPool.cc:20-27 | the pool holds exactly the started loops, in order |
| ThreadPools.EventLoopThreadPool.GetNextLoop | src/EventLoopThreadPool.cc:37-50 | returns the loop under the cursor and advances it, or the base loop when there is no other |
| LifecycleInvariant.PushKeeps | src/EventLoop.cc:115-120 | queueing a functor that fits its loop and its connection disturbs no one |
| LifecycleInvariant.UnlistKeeps | src/TcpServer.cc:124 | erasing a name unlists its own connection and no other |
| LifecycleInvariant.PopKeeps | src/EventLoop.cc:183-186 | a functor about to run finds its connection alive, on the right loop and in the expected status |
| LifecycleSteps.AcceptKeeps | src/TcpServer.cc:68-111 | accepting overwrites no entry, reuses no descriptor that a poller knows, and establishes the connection once |
| LifecycleSteps.BeginKeeps | src/Channel.cc:52-61 | when handleEvent begins the tie can be locked, and the invariant stays |
| LifecycleSteps.HandleKeeps | src/Channel.cc:70-103 | each callback of every event, with every mask and whatever other threads did since the one before, keeps the invariant; a close is handed to the server |
| LifecycleSteps.RunFunctorKeeps | src/EventLoop.cc:183-186 | every functor of every batch keeps the invariant |
| LifecycleSteps.RemoveConnectionKeeps | src/TcpServer.cc:113-129 | a close report, the first or a repeated one, before or after the connection was taken off the table, ends in its destruction |
| LifecycleSteps.ReferencedIsThere | include/Callbacks.h:10 | whatever the table, user code, a handler or a queue holds a shared pointer to is there |
| LifecycleSteps.FreeKeeps | include/Callbacks.h:10 | dropping the last shared pointer keeps the invariant |
| LifecycleSteps.RunGood | src/TcpServer.cc:68-129 | the invariant holds over every interleaving of the base loop and any number of I/O loops |
| LifecycleSafety.NeverCrashes | src/TcpServer.cc:68-129 | no run ever follows a pointer to a freed connection or channel: not poll when it sets revents, not handleEvent, no callback, no functor and no user code with a shared pointer |
| LifecycleSafety.NoStaleEntries | src/EPollPoller.cc:81-126 | every channel in a poller belongs to a live connection that is listed or waits for its connectDestroyed |
| LifecycleSafety.FreedOnlyWhenForgotten | src/TcpConnection.cc:176-185 | a connection is freed and its descriptor closed only when no poller, kernel set, active list, event handler or queue mentions it |
| LifecycleSafety.ReusedDescriptorIsFresh | src/TcpServer.cc:90-97 | a new connection on a reused descriptor meets no stale entry |
| LifecycleSafety.ActiveListIsValid | src/EventLoop.cc:74-81 | every channel still on an active list is alive, registered and watched |
| LifecycleSafety.HandlerIsGuarded | src/Channel.cc:52-61 | between the callbacks of one event the connection is there and registered, and is listed or waits for its connectDestroyed |
| LifecycleSafety.DispatchIsUndisturbed | src/EventLoop.cc:74-83 | over every interleaving, until the loop ends its dispatch: the active list is exactly what it has not worked through, and no channel has left its map |
| LifecycleSafety.DestroyFindsClosed | src/TcpConnection.cc:176-185 | whenever connectDestroyed runs, the connection is disconnected and has no interest |
| LifecycleSafety.EveryConnectionIsLawful | src/TcpConnection.cc:64-255 | the byte and interest laws hold for every connection under every interleaving |
| LifecycleSafety.AccountsBalance | src/TcpServer.cc:70-97 | accepted == listed + removed, each entry is under its own name, and the next name is free |
| LifecycleSafety.ServedRoundRobin | src/TcpServer.cc:71-74 | the k-th connection goes to I/O loop (k-1) mod n |
| LifecycleSafety.AssignedIsLoad | src/EventLoopThreadPool.cc:37-50 | over every interleaving, the connections a run has given to an I/O loop are its round-robin load |
| LifecycleSafety.LoadsDifferByOne | src/EventLoopThreadPool.cc:37-50 | after every run two I/O loops have been given numbers of connections that differ by at most one |
| LifecycleSafety.QuietWorldIsClean | src/TcpServer.cc:113-129 | with all queues empty a connection is up, listed and registered, or none of these; when all loops are polling only user code keeps the latter from being freed |
| LifecycleSafety.EveryoneSpeaksByProtocol | src/Channel.cc:70-103 | over every interleaving, for each connection that is still there: its user heard a prefix of online, message*, offline if and only if no step read from that connection after a close |
| LifecycleHistory.EveryConnectionIsAsSeen | src/TcpServer.cc:68-129 | over every interleaving, each connection that is there is in the state the reference gives for its own events, functors and user actions in the order of the run, on its own loop; no other step touches it |
| LifecycleHistory.EachLoopIsFifo | src/EventLoop.cc:115-133 | over every interleaving and for every loop: functors run ++ functors left == functors posted, where a close on an I/O loop posts one removal to the base loop, a removal one destruction to the connection's loop, and an accept one establishment to the chosen loop |
| LifecycleHistory.EveryStageRuns | src/Channel.cc:70-103 | over every interleaving, a loop that has begun an event goes through its close, read and write stage in this order before it turns to anything else |
| LifecycleHistory.PollReportsReady | src/EPollPoller.cc:129-137 | a returning poll makes the active list exactly the registered channels of the ready descriptors, in order, with their events |
| TcpServers.TcpServer.constructor | src/TcpServer.cc:17-34 | an empty table and ids from 1 |
| TcpServers.TcpServer.Start | src/TcpServer.cc:58-65 | only the first call hands the started loops to the pool and runs or queues listen on the base loop |
| TcpServers.TcpServer.NewConnection | src/TcpServer.cc:68-111 | takes the server where Lifecycle takes it and posts connectEstablished to the chosen loop and to no other |
| TcpServers.TcpServer.RemoveConnection | src/TcpServer.cc:113-118 | runs the removal on the base loop or queues it there, waking it |
| TcpServers.TcpServer.RemoveConnectionInLoop | src/TcpServer.cc:120-129 | erases the entry and queues connectDestroyed on the connection's loop, even when that is the base loop |

## Left out

- Socket, InetAddress, Acceptor, Logger, Timestamp, Thread and CurrentThread: thin wrappers of system calls; their results are parameters here. `createNonblocking` (src/Acceptor.cc:10-16) always reaches its fatal log, so the model begins at `newConnection`.
- `EventLoop::loop` as a method: its while loop need not end. Its body is the loop-thread actions of `LoopProtocol`, and the class `EventLoop` has the methods it calls.
- The cross-loop world is a transition system on values, not on objects: aliasing between the server's table, functors and pollers is expressed by connection ids, and the C++ reference counts by `Referenced`. Freeing is a step of its own that may come at any time after the last reference is gone.
- DoPendingFunctors: the effects of functors other than pushing to this loop and asking it to quit are not part of the class `EventLoop`; `Lifecycle` has them.
- TcpServer.constructor: the acceptor and its new-connection callback are left out with Acceptor.
- NewConnection: the TcpConnection object and its callbacks are an id here; the class `TcpConnection` models the object.
- The wakeups of the loops inside a `Lifecycle.World`: safety does not depend on them; `LoopProtocol` treats them for one loop and any number of other threads.
- The functors a connection posts on its own loop (write-complete, high-water) appear in `Lifecycle` as `Post` steps that may happen at any time, a superset of what the code does.
- `TcpServer::~TcpServer`: queued functors hold a raw server pointer. EventLoopThread start and join; `getAllLoops`, which has no return on one branch; DefaultPoller.
- The lifetime of what an off-thread `send` or `shutdown` queues: src/TcpConnection.cc:74-79 and 150-152 bind raw pointers. `ConnectionOffThread` treats one connection; `Lifecycle` has loop-thread calls only.
- `size_t` and eventfd widths: buffer lengths are bounded by memory, far below 2^64, so sums of them do not wrap; the eventfd counter saturates explicitly.
- `retrieveAsString` with a length above the readable bytes reads past the content in C++; the model requires that callers do not.
- `setHighWaterMarkCallback` during the life of a connection: the mark and the choice of callbacks are fixed per connection.
- Real time (the ten-second poll timeout) and fairness: only safety and step bounds are stated.
