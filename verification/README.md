# Relays, a chat server and an epoll echo loop

A Dafny model of the network experiments in this repository, and proofs about it:

- the plain relay `le_proxy`: two buffered sockets linked by four callbacks, with backpressure and
  drain-then-close;
- the object-based relay `TransparentTcpProxy`, as a simulation of the plain one;
- the chat server: sessions that broadcast through a locked table of channels;
- the epoll loop with its splice echo handlers;
- the round-robin choice of event bases.

Each system is modelled twice.  A value model (states, steps, runs) carries the theorems about whole
runs, for every interleaving.  A class model has the program's own form (callbacks, tables and handlers
updated in place, loops), and every method of it is proved to do exactly one step of the value model.

| files | content |
|---|---|
| `BufferEvents`, `FifoPipe` | buffered sockets and pairs of them as values; the pipe a direction refines |
| `LeProxy`, `LeProxyInvariant`, `LeProxyTheorems` | callbacks and runs of the plain relay, its invariant, what holds of all runs |
| `BufferEventObjects`, `LeProxyObjects` | sockets and the plain relay as objects |
| `TransparentProxy`, `TransparentTheorems`, `TransparentObjects` | the object-based relay, its simulation, its classes |
| `Chat`, `MessageLog`, `ChatInvariant`, `ChatTheorems`, `ChatRecords`, `ChatObjects` | the chat server; `ChatRecords` tells what a session is from the steps of the run alone |
| `Epoll`, `EpollInvariant`, `EpollTheorems`, `EpollHistory`, `EpollObjects` | the epoll loop and the splice echo; `EpollHistory` tells what a handler holds from the kernel's answers alone |
| `IoContext` | round robin |

## Conventions

- A run is a sequence of steps, each enabled where it is taken.  Reads, writes, EOF and errors, accepted
  descriptors, splice results, lines and failed sends are arguments of steps, so they are arbitrary
  within the contract of the kernel or the library.
- Buffered sockets follow the libevent headers: `evbuffer_add_buffer` moves everything, the write
  callback becomes due at or below the low watermark, callbacks are deferred and run one at a time in
  any order, `bufferevent_free` drops what is pending.  After EOF or an error the library may stop
  reading by itself; both possibilities are modelled.  After a write error it may stop writing as well;
  then no write happens, which is a choice of the network like any other.  Where `EveryByteCanArrive`
  and `ShutdownTerminates` say that a write can be taken, they speak of a network that still takes bytes.
- Library calls on a freed socket, pointers to deleted proxies and missing handlers set a fault flag in
  the value models.  In the class models the same calls have preconditions.
- The output limit is a parameter of the plain relay, at least 1; `MAX_OUTPUT` (512 KiB) and the 4 MiB of
  the object-based relay are instances.
- Integers are unbounded.
- A chat message carries its sender beside its text; only the text is on the wire.
- A chat connection may be accepted under any address, also that of a session that has not returned yet.

## What turned out false

- The object-based relay is not safe in all runs: EOF or an error on an end that is already draining
  deletes the other proxy a second time, because line 100 of `TransparentTcpProxy.cpp` passes the
  draining proxy itself, not NULL, as context.  `SafeIffNoSecondEvent` proves that this is the only way
  to a fault, `ResetWhileDraining` gives a run.
- The splice echo is not complete in all runs: a failed splice shifts the byte counter.
  `CompleteIffNoLossyRead` gives the exact condition, told from the counters before each read
  (`ReadLoses`), `CompleteEcho` the exact number of lost bytes, `FailedReadLosesByte` a run that loses
  one.
- A chat session is not always in the table between its registration and its removal: if its client
  reconnects from the same address before the old session has left, the old session's removal deletes
  the entry of the new one.  `MembershipIff` gives the exact condition (no session registers while
  another one is active under that address), `FreshAddressesSuffice` a simple sufficient one,
  `ReuseEvictsSuccessor` a run.  Such a session may miss messages; `TotalOrder` counts them exactly.
- `IoContext.h` describes `io_base` as a random choice; the code is round robin, and its index is never
  initialised.  `InBoundsIff` and `AvoidsMainIff` say exactly which initial values are
  harmless, for any number of threads.

## Model

| member | source | states |
|---|---|---|
| `LeProxyTheorems.EveryRunIsSafe` | source/tcp/le_proxy.cpp:99-152 | in every run no freed socket is touched, none is freed twice, a live end's context is its live partner (whose context points back) or NULL, and NULL exactly while it waits to close |
| `LeProxyTheorems.RunRefinesPipes` | source/tcp/le_proxy.cpp:57-94 | every run that ends with both ends alive is, direction by direction, a run of a first-in first-out pipe: reads put, writes get, callbacks do nothing |
| `FifoPipe.PipeIsLossless` | source/tcp/le_proxy.cpp:57-94 | a pipe loses, duplicates and reorders nothing, whatever is done to it |
| `LeProxyTheorems.RelayIsLossless` | source/tcp/le_proxy.cpp:57-94 | while both ends are open, bytes read from one equal bytes written to the other, then its output, then the first one's input |
| `LeProxyTheorems.NoLostWakeUp` | source/tcp/le_proxy.cpp:70-94 | an open end is choked exactly by a partner with the drained callback set, which is due or still has more than half the limit to write; from every reachable open state, with one or both directions choked, writes and due callbacks make both ends read again |
| `LeProxyTheorems.EveryByteCanArrive` | source/tcp/le_proxy.cpp:57-94 | from every reachable open state there is a continuation after which all bytes ever read have been written, in both directions |
| `LeProxyTheorems.BackpressureBound` | source/tcp/le_proxy.cpp:67-93 | if at most r bytes gather in an input, no output exceeds the limit - 1 + r in any run |
| `LeProxyTheorems.BackpressureAtMaxOutput` | source/tcp/le_proxy.cpp:48 | at the program's limit no output exceeds 524287 + r bytes |
| `LeProxyTheorems.BackpressureBoundIsReached` | source/tcp/le_proxy.cpp:67-93 | for every limit and every r there is a run that reaches that bound |
| `LeProxyTheorems.OpenIffNoEventHandled` | source/tcp/le_proxy.cpp:110-152 | told from the steps alone: both ends of a run are alive if and only if no end had its event callback run after EOF or an error was raised on it |
| `LeProxyTheorems.EventDecides` | source/tcp/le_proxy.cpp:110-152 | with the EOF or the error flag the end is freed and its partner is left with exactly its unwritten output and the end's input to drain, or freed if there is none; with neither flag nothing changes |
| `LeProxyTheorems.ShutdownDelivery` | source/tcp/le_proxy.cpp:110-152 | after the first EOF or error, on end s, the partner has written a prefix of all that s read; once the partner is gone it is all of it if and only if the partner did not itself raise EOF or an error with bytes left; in the other direction nothing more is read or written, so exactly the output of s and the partner's input are lost |
| `LeProxyTheorems.ShutdownTerminates` | source/tcp/le_proxy.cpp:99-150 | after the first EOF or error every continuation has a bounded number of writes, write callbacks and handled events, and while an end is alive one more can be taken, even if the flush left the half-limit watermark set |
| `LeProxyTheorems.DrainDelivers` | source/tcp/le_proxy.cpp:99-105 | the same delivery statement for any draining state |
| `LeProxy.NoPartner` | source/tcp/le_proxy.cpp:57-94 | without a partner readcb drops the input and drained_writecb makes nobody read |
| `LeProxyInvariant.StepKeepsInv` | source/tcp/le_proxy.cpp:57-152 | every step keeps the joint invariant of the two ends: open, draining or closed, never faulted |
| `LeProxyInvariant.OnEventEndsOpen` | source/tcp/le_proxy.cpp:131-150 | EOF or an error on an open pair flushes the input, frees the end, and leaves the partner draining with exactly the unwritten bytes, or closed with everything written; of the other direction exactly the end's output and the partner's input are dropped |
| `LeProxyInvariant.StepOfDraining` | source/tcp/le_proxy.cpp:99-105 | a draining pair stays draining or closes; an empty output always has its closing callback due |
| `LeProxyInvariant.OnReadKeepsOpen` | source/tcp/le_proxy.cpp:57-80 | readcb keeps an open pair open: streams intact, and choked exactly when the output has reached the limit |
| `LeProxyInvariant.OnDrainedKeepsOpen` | source/tcp/le_proxy.cpp:85-94 | drained_writecb keeps an open pair open and unchokes the partner only below the limit |
| `LeProxyObjects.Relay.constructor` | source/tcp/le_proxy.cpp:211-215 | the wiring of a new pair is the initial state of the value model, with the invariant |
| `LeProxyObjects.Relay.HandleRead` | source/tcp/le_proxy.cpp:57-80 | on live sockets, does in place what the value model's readcb does; every library call is on a live socket |
| `LeProxyObjects.Relay.HandleDrained` | source/tcp/le_proxy.cpp:85-94 | the same for drained_writecb |
| `LeProxyObjects.Relay.HandleFinished` | source/tcp/le_proxy.cpp:99-105 | the same for close_on_finished_writecb |
| `LeProxyObjects.Relay.HandleEvent` | source/tcp/le_proxy.cpp:110-152 | the same for eventcb, with and without a partner; the socket is freed exactly on EOF or an error, and nothing changes otherwise |
| `LeProxyObjects.Relay.RunRead` | source/tcp/le_proxy.cpp:57-80 | a deferred read callback in any valid state is safe, keeps the invariant and is one step of the value model |
| `LeProxyObjects.Relay.RunWrite` | source/tcp/le_proxy.cpp:85-105 | the same for whichever write callback is set |
| `LeProxyObjects.Relay.RunEvent` | source/tcp/le_proxy.cpp:110-152 | the same for the event callback |
| `BufferEventObjects.Sockets.MoveInput` | lib/libevent/event2/buffer.h:441-454 | moves the whole input of one socket behind the output of another |
| `BufferEventObjects.Sockets.Free` | lib/libevent/event2/bufferevent.h:296-305 | frees a live socket and drops what is pending; the other socket is untouched |
| `BufferEventObjects.Sockets.SetCb` | lib/libevent/event2/bufferevent.h:308-325 | replaces callbacks and context of a live socket and nothing else |
| `BufferEventObjects.Sockets.SetWriteWatermark` | lib/libevent/event2/bufferevent.h:514-538 | sets the write watermarks of a live socket and nothing else |
| `TransparentTheorems.SafeIffNoSecondEvent` | source/tcp/TransparentTcpProxy.cpp:21-110 | a run has no double delete and no dangling pointer if and only if no EOF or error is handled on a draining end; such a run is step for step a run of the plain relay with the limit 4194304, partner links stay mutual, each proxy is deleted once, together with its socket |
| `TransparentTheorems.OpenPhase` | source/tcp/TransparentTcpProxy.cpp:134-181 | whenever both proxies are alive there has been no fault, each socket's context is its owner's partner and both directions are lossless |
| `TransparentTheorems.OpenIffNoEventHandled` | source/tcp/TransparentTcpProxy.cpp:76-110 | told from the steps alone: both proxies' sockets are alive if and only if no end had its event callback run after EOF or an error was raised on it |
| `TransparentTheorems.ResetWhileDraining` | source/tcp/TransparentTcpProxy.cpp:89-108 | a run in which a proxy is deleted twice |
| `TransparentProxy.PartnerWithoutSocket` | source/tcp/TransparentTcpProxy.cpp:13-61 | for a partner without a socket the read callback deletes both proxies once and frees the socket, and the drained callback makes nobody read |
| `TransparentProxy.OpenStepSimulates` | source/tcp/TransparentTcpProxy.cpp:21-110 | every step of an open pair is the same step of the plain relay, the first teardown included |
| `TransparentProxy.DrainingStepSimulates` | source/tcp/TransparentTcpProxy.cpp:65-73 | so is every step of a draining pair except a second EOF or error |
| `TransparentProxy.SecondEventFaults` | source/tcp/TransparentTcpProxy.cpp:76-110 | a second EOF or error always faults, whatever the buffers hold |
| `TransparentObjects.ProxyPair.constructor` | source/tcp/TransparentTcpProxy.cpp:134-137 | the set-up of a pair is the initial state of the value model, with the invariant |
| `TransparentObjects.ProxyPair.Start` | source/tcp/TransparentTcpProxy.cpp:172-175 | registers the read and event callbacks with the partner as context and enables reading |
| `TransparentObjects.ProxyPair.Delete` | source/tcp/TransparentTcpProxy.cpp:179-181 | deletes a live proxy and frees its socket |
| `TransparentObjects.ProxyPair.HandleRead` | source/tcp/TransparentTcpProxy.cpp:21-48 | does in place what the value model's read callback does, also for a partner without a socket |
| `TransparentObjects.ProxyPair.HandleDrained` | source/tcp/TransparentTcpProxy.cpp:52-61 | the same for the drained callback |
| `TransparentObjects.ProxyPair.HandleFinished` | source/tcp/TransparentTcpProxy.cpp:65-73 | the same for the closing callback |
| `TransparentObjects.ProxyPair.HandleEvent` | source/tcp/TransparentTcpProxy.cpp:76-110 | the same for the event callback, except for EOF or an error on an end that is already draining; the socket is freed exactly on EOF or an error |
| `TransparentObjects.ProxyPair.RunEvent` | source/tcp/TransparentTcpProxy.cpp:76-110 | a deferred event callback, unless it is a second EOF or error, is safe, keeps the invariant and is one step of the value model |
| `ChatTheorems.TotalOrder` | rnet/src/bin/chat.rs:143-168 | everything ever put into a session's channel is the one global log, in lock order, from its registration to its end, without its own messages, if and only if no other session spoke while it was out of the table or under its address; the number of messages missed is exactly the number of such steps |
| `ChatTheorems.OwnAddressMissesNothing` | rnet/src/bin/chat.rs:143-168 | a session misses nothing if no session registers under its address while another one is active there |
| `ChatTheorems.ClientSeesLogPrefix` | rnet/src/bin/chat.rs:143-255 | what a client was sent is a prefix of what the others said since its registration, in lock order |
| `ChatTheorems.SameOrder` | rnet/src/bin/chat.rs:233-250 | two sessions registered together, having missed nothing, are sent third-party messages as unbroken stretches that agree: same messages, same order, no gaps, no duplicates |
| `ChatTheorems.SessionShape` | rnet/src/bin/chat.rs:229-275 | a peer registered throughout a session, having missed nothing, is sent by it exactly the join notice, its lines in socket order, and the leave notice if and only if its stream was exhausted |
| `ChatTheorems.Delivery` | rnet/src/bin/chat.rs:185-255 | what a client was sent, plus a message in hand, plus the channel, is all that was enqueued; after the end it is a prefix |
| `ChatTheorems.Membership` | rnet/src/bin/chat.rs:161-270 | an entry of the table is under its session's address, and the session is between registration and removal or a send to its client failed; a session between registration and removal is in the table with its own channel, unless sessions clashed under its address |
| `ChatTheorems.MembershipIff` | rnet/src/bin/chat.rs:161-270 | under an address every active session is in the table in every state of a run if and only if none registers while another one is active there |
| `ChatTheorems.FreshAddressesSuffice` | rnet/src/bin/chat.rs:86-96 | if no connection is accepted under the address of a session that has not returned, no two sessions clash |
| `ChatTheorems.ReuseEvictsSuccessor` | rnet/src/bin/chat.rs:161-270 | a run in which a leaving session deletes the entry of its successor under the same address |
| `ChatTheorems.NothingAfterLeaving` | rnet/src/bin/chat.rs:268-275 | a session that leaves is enqueued nothing more in any continuation, its own leave notice included, and its address is free |
| `ChatTheorems.FailedSendKeepsEntry` | rnet/src/bin/chat.rs:253-255 | unless sessions clashed under its address before, a failed send adds no leave notice and keeps the table entry, which only a registration under the same address ever replaces; nothing more is enqueued |
| `ChatTheorems.LinesSurviveRendering` | rnet/src/bin/chat.rs:235-272 | the text of a line is the name, a colon and a blank, and the line unchanged; the notices are the name and what it did |
| `ChatRecords.SessionIsItsSteps` | rnet/src/bin/chat.rs:86-277 | told from the steps alone: one session for every accepted connection, under its address, with the one name and the lines its client sent, in order; it is refused, registered, failed, leaving or gone exactly if it took that step |
| `ChatRecords.TurnedAway` | rnet/src/bin/chat.rs:217-227 | a client that sends no name is never registered, never in the table, never announced and sent nothing |
| `ChatRecords.WhatPeersRead` | rnet/src/bin/chat.rs:220-275 | the text a peer gets from a session is the client's own name with the join notice, the published lines as read from the socket, each behind the name, and the leave notice exactly if the session left |
| `ChatRecords.ClientReads` | rnet/src/bin/chat.rs:143-255 | the text a client was sent is a prefix of the text of what the others said |
| `ChatInvariant.StepKeepsInv` | rnet/src/bin/chat.rs:143-277 | every step of every session, whatever the addresses, keeps the entries of the table well formed and what each session has said and passed on |
| `ChatInvariant.StepHears` | rnet/src/bin/chat.rs:143-168 | every step lets a session hear a message exactly once or miss it, and miss it exactly under the stated condition |
| `ChatObjects.ChatServer.SendToAll` | rnet/src/bin/chat.rs:143-149 | whatever the iteration order, the loop appends the message once to every listening channel except the sender's and changes nothing else |
| `ChatObjects.ChatServer.RegisterPeer` | rnet/src/bin/chat.rs:154-168 | is the registration step and keeps the invariant |
| `ChatObjects.ChatServer.PollNext` | rnet/src/bin/chat.rs:185-205 | the channel is served first; a line, an error or the end of the stream is seen only with an empty channel |
| `ChatObjects.ChatServer.PassOn` | rnet/src/bin/chat.rs:253-255 | a received message is sent on and recorded, or the session ends on the spot |
| `ChatObjects.ChatServer.ReadName` | rnet/src/bin/chat.rs:220-227 | a line becomes the name, unchanged; anything else refuses the session |
| `ChatObjects.ChatServer.Prompt` | rnet/src/bin/chat.rs:217 | the session waits for a name once the prompt is sent, and is refused if it is not |
| `ChatObjects.ChatServer.AnnounceJoin` | rnet/src/bin/chat.rs:233-238 | is the join step and keeps the invariant |
| `ChatObjects.ChatServer.PublishLine` | rnet/src/bin/chat.rs:245-250 | is the publishing step and keeps the invariant |
| `ChatObjects.ChatServer.LeaveChat` | rnet/src/bin/chat.rs:268-275 | is the leaving step (removal first, then the notice) and keeps the invariant |
| `EpollTheorems.DispatchSafety` | source/tcp/epoll_handler.cpp:25-69 | the interest set is always within the handler table, and every event of a batch finds the handler registered when the wait returned, although handlers delete themselves and numbers are reused |
| `EpollTheorems.DescriptorConservation` | source/tcp/epoll_handler.cpp:183-226 | between any two events, also within a batch, open descriptors are the base ones plus three for every client handler: different, open, shared with nobody |
| `EpollTheorems.CounterAgainstPipe` | source/tcp/epoll_handler.cpp:228-249 | between any two events, also within a batch, a live handler's counter is its pipe plus failed writes minus failed reads, never negative, and what it read is what it echoed plus its pipe |
| `EpollTheorems.OneDirectionArmed` | source/tcp/epoll_handler.cpp:228-249 | after a read or write event one direction is armed, writing only with a positive counter |
| `EpollTheorems.CompleteEcho` | source/tcp/epoll_handler.cpp:238-249 | a handler removed by the read branch lost exactly failed reads minus failed writes (less one if the counter is negative), in particular nothing if no splice failed |
| `EpollTheorems.CompleteIffNoLossyRead` | source/tcp/epoll_handler.cpp:228-249 | in a run every handler removed by its read branch echoed all that it read, if and only if no read was made with a zero counter, no data and more failed reads than writes, or with counter one, failing, and at least as many failed reads as writes |
| `EpollTheorems.EventLosesIff` | source/tcp/epoll_handler.cpp:212-249 | the same for one event of any kind, with the counters taken after its write branch |
| `EpollTheorems.ReadBranchRemovesIff` | source/tcp/epoll_handler.cpp:238-249 | the read branch removes a handler if and only if failed reads outweigh failed writes plus bytes in the pipe; otherwise, also at the end of input, it has all bytes read in its pipe, counted, and arms writing |
| `EpollTheorems.RemovedIff` | source/tcp/epoll_handler.cpp:212-249 | an event removes a client if and only if it reports a hang-up or an error, whatever else it reports, or is a read after which the counter is not positive |
| `EpollTheorems.HangUpRemoves` | source/tcp/epoll_handler.cpp:212-226 | a hang-up or an error removes exactly the handler, its registration and its three descriptors, and records what was left in its pipe |
| `EpollTheorems.AcceptAddsClient` | source/tcp/epoll_handler.cpp:164-186 | a server event adds one client with an empty pipe, armed for both directions, or changes nothing |
| `EpollHistory.HandlerHoldsItsAccount` | source/tcp/epoll_handler.cpp:228-249 | told from the kernel's answers alone, between any two events of a run: a handler has taken exactly the bytes its successful read splices brought since its connection, echoed as many as its write splices took, holds the rest in its pipe, and counts the difference shifted by the failed splices |
| `EpollHistory.RemovedWithItsAccount` | source/tcp/epoll_handler.cpp:212-249 | every removed handler had taken and echoed what the answers up to its last event say, and lost the rest |
| `EpollTheorems.FailedReadLosesByte` | source/tcp/epoll_handler.cpp:228-249 | a run in which a byte is lost |
| `EpollInvariant.DispatchKeepsInv` | source/tcp/epoll_handler.cpp:164-249 | every handled event keeps table, ownership, counters and arming |
| `EpollInvariant.DispatchKeepsOthers` | source/tcp/epoll_handler.cpp:164-249 | handling an event leaves handler and registration of every other descriptor alone |
| `EpollInvariant.RemoveClosesThree` | source/tcp/epoll_handler.cpp:61-69 | removing a client closes exactly its three descriptors |
| `EpollObjects.IOLoop.AddHandler` | source/tcp/epoll_handler.cpp:41-51 | enters the handler and registers the descriptor unless it is registered already |
| `EpollObjects.IOLoop.ModifyHandler` | source/tcp/epoll_handler.cpp:53-59 | changes the armed directions of a registered descriptor only |
| `EpollObjects.IOLoop.RemoveHandler` | source/tcp/epoll_handler.cpp:61-69 | deletes the handler, removes it and its registration, and closes socket and pipe; the table keeps no pointer to a deleted handler |
| `EpollObjects.IOLoop.HandleServer` | source/tcp/epoll_handler.cpp:164-186 | accepts a connection with a fresh handler and pipe, or leaves everything as it was |
| `EpollObjects.IOLoop.HandleEcho` | source/tcp/epoll_handler.cpp:212-258 | does in place what the value model does for an echo event, and uses no field of a handler after deleting it; after a hang-up or an error the descriptor is gone and closed |
| `EpollObjects.IOLoop.ReadIn` | source/tcp/epoll_handler.cpp:238-249 | the read branch in place, with its three outcomes; a surviving handler has all bytes read behind its pipe |
| `EpollObjects.IOLoop.WriteOut` | source/tcp/epoll_handler.cpp:228-236 | the write branch in place |
| `EpollObjects.IOLoop.ProcessBatch` | source/tcp/epoll_handler.cpp:32-37 | the loop over a batch handles every event in turn with the handler it finds, and keeps the invariant |
| `IoContext.ExactShare` | source/common/concurrency/IoContext.cpp:28-36 | the exact number of times each io base is used in any number of calls |
| `IoContext.InTurn` | source/common/concurrency/IoContext.cpp:28-36 | which base every call uses: the io bases in turn from the index on, or from base 1 if the index starts beyond the array |
| `IoContext.RoundRobinIsFair` | source/common/concurrency/IoContext.cpp:28-36 | use counts of any two io bases differ by at most one, also if the index starts at 0 |
| `IoContext.InBoundsIff` | source/common/concurrency/IoContext.cpp:28-36 | every access is inside the array if and only if there is one thread, or more and the index does not start negative |
| `IoContext.AvoidsMainIff` | source/common/concurrency/IoContext.cpp:28-36 | every access is to an io base if and only if there are two threads or more and the index starts at 1 or above |
| `IoContext.Context.constructor` | source/common/concurrency/IoContext.cpp:12-22 | fills the array with one new base per thread, all different, none for no threads; the index keeps what memory holds |
| `IoContext.Context.IoBase` | source/common/concurrency/IoContext.cpp:28-36 | returns the base at the current index, wrapped to 1, and advances the index |

## Left out

- SSL wrapping, argument and address parsing, listeners and connecting in `le_proxy.cpp`: foreign calls.
- Original-destination lookup, upstream connect and failed set-up in `TransparentTcpProxy.cpp`: socket options and foreign calls; only the links are modelled.
- TransparentObjects.ProxyPair.HandleEvent: not for EOF or an error on an end that is already draining, because that is a double delete; the value model covers it.
- TransparentObjects.ProxyPair.RunEvent: likewise.
- Failing `pipe()` in `SpliceEchoHandler`: its descriptors would be uninitialised; pipe creation is taken to succeed.
- Wrap-around of the 32-bit byte counter after 2^31 failed splices.
- `EchoHandler`, which is never instantiated.
- The line codec, the async runtime and tracing in `chat.rs`: lines are opaque and the runtime is any interleaving of the stretches between suspension points.
- `IoContext::listen`, `dispatch` and `free`: foreign calls.
- A negative thread count in the `IoContext` constructor: the allocation throws.
- `tcp_proxy.cpp`: an unfinished variant of the relay, for which these properties do not hold.
- The tokio echo and proxy programs, the load client and the demos: connections share no state, and what they forward depends on the runtime's read, write and copy calls alone, which are foreign code.
