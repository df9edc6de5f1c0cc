# MyMuduo reactor and chat cluster: a verified model

MyMuduo is a C++ network library built as one event loop per thread; a chat service runs on its API as a cluster of
servers that share one database and one Redis. This project models the parts of both where several pieces of state
have to agree, and proves what they promise.

| file | what it models |
|---|---|
| `Buffer.dfy` | the growable byte buffer: an array with two indices, compaction, growth, scatter read; its capacity over runs |
| `Poller.dfy` | `updateChannel`/`removeChannel` on the poller's map and the kernel's epoll set, with the kernel's refusals written out |
| `Reactor.dfy` | `Channel` and `EpollPoller` as objects, each method proved against `Poller.dfy` |
| `Connection.dfy` | one TCP connection call by call, as functions on a value and as a machine whose runs interleave dispatched callbacks with user calls |
| `ConnectionTheorems.dfy` | the byte stream, half-close, callback accounting, single close, over all runs |
| `ConnectionInputs.dfy` | what the inputs of a run come to: bytes taken and read, states, callbacks to the user, callbacks of a dispatch |
| `TcpConnection.dfy` | `TcpConnection` as an object with two buffers and a registered channel, each method proved against `Connection.dfy` |
| `WakeupProtocol.dfy` | one event loop, its functor queue and eventfd, and any number of posting threads, as atomic steps |
| `LoopPool.dfy` | round-robin assignment and connection names |
| `ServerLifetime.dfy` | base loop, I/O loops, functor queues, running batches, pollers, registry and pointers, as a transition system |
| `ServerInvariant.dfy` | what every step of that system keeps |
| `ServerConnections.dfy` | any run of the server, told for one connection with any bytes, is a run of the machine of `Connection.dfy` |
| `ServerAccounts.dfy` | reported channels are taken up, asked callbacks are made, queued functors run, rounds end |
| `ServerTheorems.dfy` | lifetime safety, release, registry, one life per connection, over all runs |
| `Chat.dfy` | the chat handlers, as functions on the shared data and one server's map, and as `Store` and `ChatService` objects |
| `ChatTheorems.dfy` | sessions and message conservation over all runs of a cluster |
| `ChatOrder.dfy` | the order in which messages arrive out of queues and out of the store |
| `ChatLimits.dfy` | the requests that break these promises, with runs that do; closed connections; messages stored for users who are online |
| `Sequences.dfy` | two facts about concatenation |

Where one thread owns the state (buffer, channel, poller, connection, thread pool, chat service) the source's objects
are Dafny classes. The event loop with its posting threads and the server with its loops are step relations instead,
because their threads interleave between the statements of a method.

## Findings

- `disableAll` on a channel that is not in the epoll set puts it there with an empty mask
  (`Epoll.DisableAllUnregistersIff`). The acceptor's destructor does this to the listening fd of a server that was never
  started (`Epoll.DisableAllRegistersNew`); the `remove` right behind it takes it out again
  (`Epoll.DisableAllThenRemove`). The connection's and the event loop's own calls are on registered channels.
- A functor that the loop thread queues on its own loop before `loop()` does not wake the first poll. A loop is in poll
  with work nobody wakes it for exactly then, and only until that poll returns or another thread posts or writes the
  eventfd (`WakeupProtocol.UnwokenIff`). The work waits for another event or for poll's 10 seconds to pass
  (`WakeupProtocol.TimeoutTakesTheQueue`).
- A `quit()` is honoured exactly when `loop()` is not entered after it (`WakeupProtocol.QuitIsHonouredIff`), because
  `loop()` begins by clearing the flag.
- A direct write that writes nothing and finds `errno` at EPIPE or ECONNRESET drops its message and leaves the
  connection open; the output is the concatenation of everything accepted exactly when that never happens to a non-empty
  message (`ConnectionTheorems.OutputStream`). For EPIPE this needs a process that ignores SIGPIPE, which of the
  repository's programs only `graceserver.cc` does.
- The logout handler trusts the id it is sent. It keeps the sessions in order exactly when that user is logged in on this
  server or is not online (`ChatTheorems.LogoutKeepsSessionsIff`); otherwise two servers can come to hold the user
  (`ChatLimits.ForeignLogoutSplitsSession`).
- The search that ends a closed connection's session stops at the first entry, so an entry stays behind exactly when the
  connection stood for two users (`ChatLimits.CloseClearsIff`). The user left behind stays online, and messages to them
  go to the closed connection (`ChatLimits.ClosedConnectionIsHanded`).
- A message can lie in the offline store although its user is online, until they log in again: exactly when a server has
  taken it out of its queue after they had left that server and nothing has logged them in since
  (`ChatLimits.StoredWhileOnlineIff`, reached in `ChatLimits.MovedUserMissesMessage`).
- `loginout` and `clientCloseException` erase the entry under the lock, and unsubscribe and tell the database after it. A
  message sent on any server between those two steps is lost exactly when it is for the registered user who is leaving
  (`ChatLimits.HalfLogoutLosesIff`), so the cluster theorems take each handler as one step.
- `unique_lock<mutex>(_connMutex);` in `login` and `groupChat` declares a variable and locks nothing, although the code
  around it says the map must be locked. What two threads in the map at once would do is not modelled.
- A database lookup that finds no row answers with a default user, so a login with id -1 and an empty password succeeds
  (`ChatTheorems.LoginSucceedsIff`). No registered user has that id, and the session theorems are about registered users.

## Assumptions

- System calls are parameters: write takes at most what it is given or fails with any `errno`, readv stores at most what
  the two areas hold, epoll reports registered channels at most once per call, accept gives an fd that no existing
  connection has.
- `send()` and `shutdown()` are called on the connection's own loop. User callbacks are any finite sequence of sends,
  shutdowns and reads from the input buffer.
- The connection counter stays within an `int`, and the address text of an IPv4 endpoint has at most 21 characters.
- Each chat handler is one atomic step, database and Redis calls succeed, and a client logs out its own id. Only
  `ChatLimits.ClosedMeansGone` and `ChatLimits.ClosedGetsNothing` also assume that nobody logs in on a connection that
  already stands for a user.

## Model

| member | source | states |
|---|---|---|
| Buffers.CapacityBound | project/MyMuduo/Buffer.h:76-124 | over any run of appends, retrieves and reads with readable length within R and appends within L, the vector never exceeds max(its size, R + L + 7) |
| Buffers.CapacityBoundIsTight | project/MyMuduo/Buffer.h:114-117 | for every L >= 1 and R > L some run reaches that bound, so it cannot be lowered |
| Buffers.CompactionMovesLeft | project/MyMuduo/Buffer.h:114-124 | making room compacts exactly when the free space suffices, only with the reader strictly beyond 8, and afterwards the bytes fit |
| Buffers.Buffer.constructor | project/MyMuduo/Buffer.h:26-32 | a new buffer is empty, with both indices at 8 and 8 + initialSize bytes |
| Buffers.Buffer.Retrieve | project/MyMuduo/Buffer.h:52-58 | drops the first len bytes of the contents, or all of them if there are not more |
| Buffers.Buffer.RetrieveAll | project/MyMuduo/Buffer.h:60-63 | empties the buffer and resets both indices without changing its size |
| Buffers.Buffer.RetrieveAsString | project/MyMuduo/Buffer.h:70-74 | the result followed by what is left is the old contents; asking for more than is readable returns bytes beyond it |
| Buffers.Buffer.RetrieveAllAsString | project/MyMuduo/Buffer.h:66-68 | returns the whole contents and leaves the buffer empty |
| Buffers.Buffer.CopyLeft | project/MyMuduo/Buffer.h:119 | a front-to-back copy to the left delivers the old bytes even where source and target overlap |
| Buffers.Buffer.MakeSpace | project/MyMuduo/Buffer.h:114-124 | growing or compacting leaves the contents unchanged and room for len more |
| Buffers.Buffer.EnsureWriteableBytes | project/MyMuduo/Buffer.h:76-80 | there is room for len bytes afterwards and the contents are unchanged |
| Buffers.Buffer.Append | project/MyMuduo/Buffer.h:84-88 | the contents grow by exactly the bytes given, whether they fit, force compaction or force growth |
| Buffers.Buffer.ReadFd | project/MyMuduo/Buffer.cc:10-36 | for every read length the two areas allow the contents grow by exactly the bytes read, in order; a failed read changes nothing and saves errno |
| Epoll.UpdateKeepsMirror | project/MyMuduo/EPollPoller.cc:69-90 | an update with the two books in step leaves them in step under any new mask, is never refused by the kernel and touches no other fd |
| Epoll.RemoveKeepsMirror | project/MyMuduo/EPollPoller.cc:92-101 | a removal takes the fd out of both books, is never refused and touches no other fd |
| Epoll.UpdateRegisters | project/MyMuduo/EPollPoller.cc:69-90 | after an update the kernel watches the fd for exactly the mask asked for, whether the channel was new, deleted or added; only an empty mask on an added channel takes it out |
| Epoll.AskingRegisters | project/MyMuduo/Channel.h:43-47 | after any call that leaves the mask non-empty the fd is registered with exactly that mask; after a removal it is in neither book |
| Epoll.PollerMirror | project/MyMuduo/EPollPoller.cc:69-101 | over any run of enable, disable and remove calls on channels with distinct fds, kAdded means present in the kernel with the channel's mask, not kNew means present in the map, and no epoll_ctl is refused |
| Epoll.DisableAllUnregistersIff | project/MyMuduo/Channel.h:47 | disableAll takes the fd out of the kernel set exactly when the channel was registered |
| Epoll.DisableAllRegistersNew | project/MyMuduo/Acceptor.cc:37-40 | the witness: on an accept channel that never listened it adds the fd with an empty mask |
| Epoll.DisableAllThenRemove | project/MyMuduo/Acceptor.cc:37-40 | disableAll followed by remove leaves the fd in neither book, whatever the channel was, with nothing refused |
| Reactor.Channel.constructor | project/MyMuduo/Channel.cc:9-17 | a new channel has no interest, is not in the poller and leaves the poller's books as they were |
| Reactor.Channel.EnableReading | project/MyMuduo/Channel.h:43 | adds the read bits to the mask and brings both books in step, refused by nobody |
| Reactor.Channel.EnableWriting | project/MyMuduo/Channel.h:45 | adds the write bit and brings both books in step |
| Reactor.Channel.DisableWriting | project/MyMuduo/Channel.h:46 | clears the write bit and brings both books in step |
| Reactor.Channel.DisableAll | project/MyMuduo/Channel.h:47 | clears the mask and brings both books in step |
| Reactor.Channel.Destroy | project/MyMuduo/Channel.cc:19 | a removed channel leaves the loop's channels, and its fd is free for another |
| Reactor.Channel.Remove | project/MyMuduo/Channel.cc:36-39 | the fd is in neither book afterwards and the index is kNew |
| Reactor.EpollPoller.UpdateChannel | project/MyMuduo/EPollPoller.cc:69-90 | called with the books in step but for this channel's new mask, leaves everything in step and no call refused |
| Reactor.EpollPoller.RemoveChannel | project/MyMuduo/EPollPoller.cc:92-101 | leaves everything in step with this fd gone from both books |
| Reactor.EpollPoller.Update | project/MyMuduo/EPollPoller.cc:116-129 | an ADD of an absent fd or a MOD of a present one leaves exactly this registration, a DEL of a present one leaves none, and no other fd changes; any other call is refused and changes nothing |
| Reactor.EpollPoller.Poll | project/MyMuduo/EPollPoller.cc:35-62 | exactly the reported channels are listed, in the kernel's order, each with its events; the list doubles exactly when it was full |
| Reactor.EpollPoller.FillActiveChannels | project/MyMuduo/EPollPoller.cc:107-114 | appends the reported channels in order, sets their events and leaves all others alone |
| Connection.StepKeepsInv | project/MyMuduo/TcpConnection.cc:90-268 | every event keeps: kernel bytes then buffered bytes are the sends that were kept, write interest holds exactly while bytes are buffered, the write side is shut at most once and only with nothing buffered, at most one callback of a dispatch may close |
| Connection.RunKeepsInv | project/MyMuduo/TcpConnection.cc:90-268 | the same after any run of dispatched callbacks and user calls |
| Connection.DispatchIsRun | project/MyMuduo/Channel.cc:53-78 | a whole dispatch, with the message callback's user code behind the read, is one of the machine's runs |
| ConnectionInputs.DeliveredIsTaken | project/MyMuduo/TcpConnection.cc:90-256 | what was handed to the kernel is the first n bytes kept and what is buffered the rest, n being what the kernel took in the run's direct writes and write callbacks |
| ConnectionInputs.InputStream | project/MyMuduo/TcpConnection.cc:203-231 | what arrived is what the run's reads brought, in order; the user has had as much of its beginning as their calls asked for and found, and the input buffer holds the rest |
| ConnectionInputs.StateAndUpcalls | project/MyMuduo/TcpConnection.cc:156-268 | the state is the one the events lead to, and the user and the server are told exactly what the events call for, in order |
| ConnectionInputs.DestroyedIff | project/MyMuduo/TcpConnection.cc:187-196 | a connection that has ended stays ended, and its channel is new again exactly once connectDestroyed has run |
| ConnectionInputs.ShutdownTakesEffect | project/MyMuduo/TcpConnection.cc:156-168 | shutdown() of a connected connection shuts the write side then and there exactly when nothing is buffered, and it is never connected again |
| ConnectionInputs.CallbacksOf | project/MyMuduo/Channel.cc:53-78 | which returned events lead to which callbacks, each at most once, in the order close, error, read, write |
| ConnectionInputs.CallbacksMade | project/MyMuduo/Channel.cc:53-78 | over any run, the callbacks made and those still to come are what the dispatches asked for, in order |
| ConnectionInputs.MessageCodeRuns | project/MyMuduo/TcpConnection.cc:206-222 | the user's message code runs, all of it and once, exactly when the dispatch reads and bytes arrive |
| ConnectionInputs.MessageCodeFollowsRead | project/MyMuduo/TcpConnection.cc:206-222 | ... right behind the read and before the callbacks that follow |
| ConnectionTheorems.OutputStream | project/MyMuduo/TcpConnection.cc:90-149 | bytes given to the kernel followed by bytes buffered are the concatenation of every accepted send, in order, exactly when no non-empty direct write met EPIPE or ECONNRESET; otherwise they are the sends not dropped |
| ConnectionTheorems.FaultLosesMessage | project/MyMuduo/TcpConnection.cc:112-122 | a send that meets either error is accepted and lost, and the connection stays open |
| ConnectionTheorems.StreamsOnlyGrow | project/MyMuduo/TcpConnection.cc:203-256 | what has been handed to the kernel and what has been received is a prefix of what will have been |
| ConnectionTheorems.NothingAfterFin | project/MyMuduo/TcpConnection.cc:156-168 | after shutdown() no send is accepted, and after the write side is shut nothing more is delivered |
| ConnectionTheorems.HalfClose | project/MyMuduo/TcpConnection.cc:156-168 | the write side is shut at most once, with every kept byte delivered then and for ever |
| ConnectionTheorems.DrainReachesFin | project/MyMuduo/TcpConnection.cc:233-248 | after shutdown() as many productive write callbacks as there are buffered bytes are enough to shut the write side, unless the connection closes first |
| ConnectionTheorems.CallbackAccounting | project/MyMuduo/TcpConnection.cc:104-138 | high-water notices queued equal upward crossings of the mark, and write-complete notices equal steps that leave nothing undelivered |
| ConnectionTheorems.StateMovesForward | project/MyMuduo/TcpConnection.cc:156-196 | the state only moves Connecting, Connected, Disconnecting, Disconnected |
| ConnectionTheorems.SingleClose | project/MyMuduo/TcpConnection.cc:260-268 | handleClose has run exactly when the state is Disconnected and at most once; at most one UP, then at most one DOWN; interest in writing exactly while there is something to write |
| TcpConnections.TcpConnection.constructor | project/MyMuduo/TcpConnection.cc:25-68 | a new connection is Connecting, unregistered, with empty buffers |
| TcpConnections.TcpConnection.Send | project/MyMuduo/TcpConnection.cc:75-86 | what the specification of send does to state, both streams, interest, poller books and notices, and no epoll_ctl refused |
| TcpConnections.TcpConnection.SendInLoop | project/MyMuduo/TcpConnection.cc:90-149 | direct write, fault, remainder, notices and interest exactly as specified |
| TcpConnections.TcpConnection.WriteDirectly | project/MyMuduo/TcpConnection.cc:103-123 | what the kernel takes of a send with nothing waiting, the write-complete notice, and when the write counts as a fault |
| TcpConnections.TcpConnection.BufferRest | project/MyMuduo/TcpConnection.cc:129-146 | the remainder is appended, the high-water notice queued at a crossing, writing enabled |
| TcpConnections.TcpConnection.Shutdown | project/MyMuduo/TcpConnection.cc:156-161 | a connected connection becomes Disconnecting and shuts its write side if nothing is buffered; any other is unchanged |
| TcpConnections.TcpConnection.ShutdownInLoop | project/MyMuduo/TcpConnection.cc:163-168 | shuts the write side exactly when the channel is not writing |
| TcpConnections.TcpConnection.RetrieveInput | project/MyMuduo/Buffer.h:70-74 | user code gets a prefix of the input and the rest stays |
| TcpConnections.TcpConnection.ConnectEstablished | project/MyMuduo/TcpConnection.cc:173-184 | Connected, registered in the kernel for reading, one UP |
| TcpConnections.TcpConnection.ConnectDestroyed | project/MyMuduo/TcpConnection.cc:187-196 | the fd is in neither book of the poller; DOWN only if the connection was still Connected |
| TcpConnections.TcpConnection.HandleRead | project/MyMuduo/TcpConnection.cc:203-231 | the input grows by exactly the bytes read and a message callback follows; end of stream closes; an error changes nothing |
| TcpConnections.TcpConnection.HandleWrite | project/MyMuduo/TcpConnection.cc:233-256 | exactly the bytes the kernel took leave the front of the buffer and are delivered; an emptied buffer ends write interest and completes a pending shutdown |
| TcpConnections.TcpConnection.WriteCompleted | project/MyMuduo/TcpConnection.cc:239-247 | the emptied buffer's consequences, in order |
| TcpConnections.TcpConnection.HandleClose | project/MyMuduo/TcpConnection.cc:260-268 | Disconnected, no interest, DOWN then the close callback |
| TcpConnections.TcpConnection.RunUserCode | project/testmymuduo/testmuduo.cc:32-36 | any sequence of user calls does what the specification says of them in order |
| TcpConnections.TcpConnection.HandleEvent | project/MyMuduo/Channel.cc:53-78 | the callbacks of the returned events, in order, are a run of the connection machine from the old view to the new |
| WakeupProtocol.FunctorsConserved | project/MyMuduo/EventLoop.cc:122-171 | executed, rest of batch and queue are at every moment the functors that the run's steps have posted, in lock order, so each runs once for each post and in order |
| WakeupProtocol.ReportedIsHandled | project/MyMuduo/EventLoop.cc:75-84 | the channels handled and those still to be handled are those poll has reported, in order |
| WakeupProtocol.EventfdIs | project/MyMuduo/EventLoop.cc:137-184 | the eventfd counts the writes since the wakeup channel was last handled, so poll can report it exactly when there was one since |
| WakeupProtocol.StepKeepsWoken | project/MyMuduo/EventLoop.cc:122-184 | no step but an early post leaves queued work without a readable eventfd, a pending write, or a loop on its way to the swap |
| WakeupProtocol.UnwokenIff | project/MyMuduo/EventLoop.cc:122-144 | over all interleavings, a loop in poll has work it is not woken for exactly when this is its first poll, its own thread queued something before loop(), and no other thread has posted or written the eventfd |
| WakeupProtocol.NoLostWakeup | project/MyMuduo/EventLoop.cc:122-144 | a loop in poll with work queued has a readable eventfd or a thread between its push and its write, in every interleaving without early posts and in any other from the first return of poll on; after a quit always |
| WakeupProtocol.LoopCanMove | project/MyMuduo/EventLoop.cc:75-92 | once the posters have written, poll can return the wakeup channel, under the same condition for work and always for quit; outside poll the loop always has a step |
| WakeupProtocol.ThreadsCanMove | project/MyMuduo/EventLoop.cc:103-144 | nobody is kept from posting, quitting or writing the eventfd |
| WakeupProtocol.EarlyPostsAreUnwokenIff | project/MyMuduo/EventLoop.cc:129-133 | the witness: after early posts of any number a loop that goes straight to poll is not woken |
| WakeupProtocol.TimeoutTakesTheQueue | project/MyMuduo/EventLoop.cc:75-92 | from poll the timeout alone leads to a batch of everything queued |
| WakeupProtocol.QuitIsHonouredIff | project/MyMuduo/EventLoop.cc:69-109 | in every interleaving a loop at its test stops exactly when some thread has called quit() since loop() was entered |
| WakeupProtocol.QuitEndsTheRound | project/MyMuduo/EventLoop.cc:69-109 | after such a quit() the loop completes at most one more round, whatever any thread does |
| WakeupProtocol.EarlyQuitIsForgotten | project/MyMuduo/EventLoop.cc:69-75 | the witness of a quit() that is cleared: the loop polls on |
| WakeupProtocol.TwoRoundsRunEverything | project/MyMuduo/EventLoop.cc:160-171 | every functor posted by some moment has run once two more rounds of doPendingFunctors are complete, whatever is posted meanwhile |
| LoopPool.EventLoopThreadPool.GetNextLoop | project/MyMuduo/EventLoopThreadPool.cc:42-53 | call k answers with sub-loop k mod n, or the base loop if there is no other |
| LoopPool.EventLoopThreadPool.GetAllLoops | project/MyMuduo/EventLoopThreadPool.cc:55-63 | the sub-loops, or the base loop if there are none, in the order in which getNextLoop goes round them |
| LoopPool.LoadIs | project/MyMuduo/EventLoopThreadPool.cc:42-53 | how many of the first k connections each loop has, in closed form |
| LoopPool.Balanced | project/MyMuduo/EventLoopThreadPool.cc:42-53 | after any number of connections two loops' counts differ by at most one |
| LoopPool.LoopsAreBalanced | project/MyMuduo/EventLoopThreadPool.cc:42-53 | counting the loops the calls were answered with, two sub-loops' counts differ by at most one and each has its share of every whole round |
| LoopPool.NameIs | project/MyMuduo/TcpServer.cc:75-78 | the name is the server's name, the address and the number, not cut off, and the number reads back |
| LoopPool.NamesDiffer | project/MyMuduo/TcpServer.cc:75-78 | the 64-byte name buffer never cuts the number off, so different connection numbers give different names |
| ServerInvariant.ExecKeeps | project/MyMuduo/TcpServer.cc:107-125 | running connectEstablished, removeConnectionInLoop or connectDestroyed uses up the one functor waiting for its connection and leaves exactly the next one, on the right loop |
| ServerInvariant.ConnChange | project/MyMuduo/EPollPoller.cc:69-101 | when one connection changes its registration every other stays mirrored, although finished connections once had the same fd |
| ServerInvariant.UnfinishedIsHeld | project/MyMuduo/TcpServer.cc:93-125 | a connection not yet removed for good is held by the registry, a queued functor, a running batch or the functor in hand, whatever pointers users keep |
| ServerInvariant.StepKeeps | project/MyMuduo/TcpServer.cc:73-125 | every step of every loop and of user code keeps the whole invariant and never revives a connection nobody holds |
| ServerAccounts.ReportedIsTakenUp | project/MyMuduo/EventLoop.cc:75-84 | over any run and on every loop, the channels taken up and those still to be dispatched are those poll has reported, in order, so all are taken up when the loop goes on to its functors |
| ServerAccounts.CallbacksAreMade | project/MyMuduo/Channel.cc:41-78 | on every loop, the callbacks made and those still to come are those the dispatched channels' events asked for, on the connections they are for |
| ServerAccounts.QueuedIsRun | project/MyMuduo/EventLoop.cc:110-171 | on every loop, the functors run, the rest of the batch and the queue are those the steps have queued there, in order; only a loop's own thread runs one at once |
| ServerAccounts.TwoBatchesRunEverything | project/MyMuduo/EventLoop.cc:160-171 | what was queued on a loop by some moment has run there once the loop has come to the end of two more batches |
| ServerAccounts.AcceptedAreConnections | project/MyMuduo/TcpServer.cc:73-94 | there are as many connections as accepts, and number c has the fd of the c-th |
| ServerAccounts.LoopsCanMove | project/MyMuduo/EventLoop.cc:75-92 | in every reachable state each loop has a next step: any registered channel may be reported, any events dispatched, each callback made |
| ServerAccounts.RoundsEnd | project/MyMuduo/EventLoop.cc:75-92 | each of a loop's own steps brings it closer to its next poll, and nothing else takes it further away |
| ServerTheorems.LifetimeSafety | project/MyMuduo/TcpServer.cc:93-125 | for any loops, connections and interleaving, every channel in a poller or still to be dispatched and every functor's connection is held by the registry, a queued functor or a running batch; a channel to be dispatched is still in its poller; no epoll_ctl is refused although fds are reused |
| ServerTheorems.GoneIsGone | project/MyMuduo/Channel.cc:41-50 | a connection nobody holds is never held or used again |
| ServerTheorems.QuietMeansReleased | project/MyMuduo/TcpServer.cc:119-125 | when all loops are back in poll with empty queues a closed connection is out of its poller and held by user pointers only |
| ServerTheorems.RegistryExact | project/MyMuduo/TcpServer.cc:73-94 | connections_ lists a connection exactly until its removal has run on the base loop, a new name is never taken, and connection c is on loop c-1 mod n |
| ServerTheorems.OneLife | project/MyMuduo/TcpConnection.cc:173-196 | each connection's state only moves forward, its user sees one UP and then at most one DOWN in step with it, on one loop |
| ServerConnections.StepFollows | project/MyMuduo/TcpConnection.cc:90-268 | a step of the server is for each connection at most one event of the connection machine, enabled there and with the same effect on state, registration, interest and pending callbacks, whatever bytes go with it |
| ServerConnections.ServerRunIsConnectionRun | project/MyMuduo/TcpServer.cc:73-125 | any run of the server, told for one connection with any bytes that have the steps' effects and any sends and reads that have none, is a possible run of the connection machine |
| ServerConnections.EveryRunIsTold | project/MyMuduo/TcpServer.cc:73-125 | every run of the server can be told for every connection |
| ServerConnections.ServerConnectionStream | project/MyMuduo/TcpConnection.cc:90-149 | so the byte stream and half-close theorems hold for each connection of the server, with its bytes |
| ChatServices.ChatService.Login | project/CHAT/src/server/chatservice.cpp:73-172 | the three outcomes, and for success the map entry, subscription and online flag, and an answer with one entry for each stored message, which are then deleted |
| ChatServices.ChatService.Logout | project/CHAT/src/server/chatservice.cpp:207-223 | entry and subscription go and the account is marked offline, whoever was asked for |
| ChatServices.ChatService.OneChat | project/CHAT/src/server/chatservice.cpp:237-260 | local user: handed to their connection; online elsewhere: published; otherwise stored |
| ChatServices.ChatService.GroupChat | project/CHAT/src/server/chatservice.cpp:322-349 | every row of the group but the sender's is routed, in order |
| ChatServices.ChatService.HandleRedisMessage | project/CHAT/src/server/chatservice.cpp:39-49 | the oldest published message is handed to the user's connection, or stored if the user has gone |
| ChatServices.ChatService.ClientCloseException | project/CHAT/src/server/chatservice.cpp:352-375 | some entry of the connection is found if there is one, and that user is logged out |
| ChatServices.Store.Publish | project/CHAT/src/server/redis/redis.cpp:47-60 | the message joins the queue of every subscribed server and no other |
| ChatServices.Store.TakeOffline | project/CHAT/src/server/model/offlinemessagemodel.cpp:18-49 | what is taken and what stays are together what was stored; all that is taken is the user's and none of theirs stays |
| ChatServices.Store.UpdateState | project/CHAT/src/server/model/usermodel.cpp:53-66 | afterwards the user reads as told if registered; no account comes or goes, no password and no other account changes |
| ChatTheorems.ClusterIsSound | project/CHAT/src/server/chatservice.cpp:237-260 | in every reachable state a registered user is online exactly when one server's map holds them, subscriptions coincide with maps, and everything the run addressed has been handed over, is queued or is stored, once |
| ChatTheorems.DrainedAccount | project/CHAT/src/server/chatservice.cpp:39-49 | with empty queues, what was addressed to a user is what their connections got plus what is stored for them |
| ChatTheorems.StepRecords | project/CHAT/src/server/chatservice.cpp:322-349 | an event addresses exactly the messages its inputs name and hands messages only to the recipient's connection |
| ChatTheorems.RouteConservesIff | project/CHAT/src/server/chatservice.cpp:237-260 | routing keeps the account exactly when the user is local, or not online, or has exactly one subscriber |
| ChatTheorems.LoginSucceedsIff | project/CHAT/src/server/chatservice.cpp:77-111 | exactly who gets in, and that nothing is left in the store for them |
| ChatTheorems.LoginAnswers | project/CHAT/src/server/chatservice.cpp:77-170 | exactly when the answer is wrong password, already online or success, and that a success carries the text of every stored row of the user, in order |
| ChatTheorems.LoginChanges | project/CHAT/src/server/chatservice.cpp:86-112 | a failed login changes nothing, a successful one this user's entry, subscription, flag and stored messages and nobody else's |
| ChatTheorems.LogoutChanges | project/CHAT/src/server/chatservice.cpp:207-223 | the user is gone from this server and reads as offline, and nothing else is different |
| ChatTheorems.CloseIsLogout | project/CHAT/src/server/chatservice.cpp:352-375 | the end of a connection is a logout of the registered user it is found to stand for |
| ChatTheorems.LogoutKeepsSessionsIff | project/CHAT/src/server/chatservice.cpp:207-223 | logout keeps the sessions in order exactly when the id is logged in on this server or not online |
| ChatOrder.PublishedInOrder | project/CHAT/src/server/chatservice.cpp:237-260 | while a user stays logged in on a server, what that server hands them out of its queue and what is still queued are what was queued and what other servers have sent them, in that order |
| ChatOrder.StoredInOrder | project/CHAT/src/server/chatservice.cpp:237-260 | while a user is not online, what is stored for them is what was stored and what any server was sent or took up for them since, in that order |
| ChatLimits.ForeignLogoutSplitsSession | project/CHAT/src/server/chatservice.cpp:207-223 | the witness: asked on server 1 to log out a user of server 0, the cluster marks them offline, and they can then log in on both |
| ChatLimits.HalfLogoutLosesIff | project/CHAT/src/server/chatservice.cpp:207-223 | between unsubscribe and the database update, a message sent on any server is lost exactly when it is for the registered user who is leaving |
| ChatLimits.CloseClearsIff | project/CHAT/src/server/chatservice.cpp:356-362 | a closed connection leaves no entry exactly when it stood for at most one user |
| ChatLimits.ClosedConnectionIsHanded | project/CHAT/src/server/chatservice.cpp:352-375 | the witness: two users on one connection, it closes, and a message to the second is handed to it |
| ChatLimits.ClosedMeansGone | project/CHAT/src/server/chatservice.cpp:352-375 | if nobody logs in twice on one connection, a connection that closes leaves no entry behind, in every run |
| ChatLimits.ClosedGetsNothing | project/CHAT/src/server/chatservice.cpp:352-375 | and from then on its server hands nothing to it, in every run in which nobody logs in on it again |
| ChatLimits.StoredWhileOnlineIff | project/CHAT/src/server/chatservice.cpp:39-49 | an online user has stored messages exactly when, since their last login, a server took a message for them out of its queue without having them |
| ChatLimits.MovedUserMissesMessage | project/CHAT/src/server/chatservice.cpp:39-49 | a run that gets there: the user changes servers while a message is in a queue |

## Left out

- TcpServer and EventLoop destructors and process exit: teardown captures raw pointers, and a connection in Disconnecting gets no DOWN callback there.
- Cross-thread `send()` and `shutdown()`: the first queues a raw character pointer, the second is a check followed by a set; the model takes both as calls on the connection's loop.
- EventLoop and TcpServer as classes: their threads interleave between statements, so they are step relations and update in place is not modelled for them.
- The wakeup channel and the bytes in `ServerLifetime.dfy`: the first is `WakeupProtocol.dfy`'s subject, the second `Connection.dfy`'s, and `ServerConnections.dfy` joins it to the server.
- `setHighWaterMarkCallback` during a connection's life: mark and callbacks are fixed per connection.
- `size_t` overflow of buffer lengths: indices are unbounded numbers.
- Windows inside the chat handlers other than the one in `ChatLimits.HalfLogoutLosesIff`: everywhere else a handler is one step.
- Message order between a user's own server and the queues of others: a message sent on the user's server is handed over at once and may overtake queued ones.
- ChatService's `reset`, registration, friends, group creation, and the friend and group lists in the login answer.
- SQL text, its fixed buffers and column widths, JSON, the chat client, Logger, Timestamp, Thread, Acceptor and socket options.
