# A reactor TCP server, verified

This project models the event loop, poller, connection lifecycle and byte buffer of a small
muduo-style C++ server, and the pixel loops of its BMP tool, and proves that the layers fit together.

## How it is built

| file | what it holds |
|---|---|
| `PollerModel.dfy` | channels, the poller's fd table and the kernel's epoll list, as values; the exact usage rule under which they agree |
| `FunctorQueue.dfy` | `pendingFunctors_` and the batch swapped out of it |
| `ConnectionModel.dfy` | each method of TcpConnection, TcpServer and MyServer as a function on one connection and the state it shares |
| `Outcomes.dfy` | where every byte goes in a send and in a buffered write |
| `ServerModel.dfy` | the whole server as a step machine: poll, dispatch, drain, user calls, destructors |
| `LocalInvariant.dfy`, `ServerInvariant.dfy` | what holds of each connection and of the server in every reachable state |
| `ServerTheorems.dfy`, `Completion.dfy` | lifecycle, lifetime, interest set, descriptors, wire, half-close, admission, write-complete: statements over every run |
| `Transitions.dfy` | the server as one connection sees it: a table of every kind of step, followed in every run |
| `Polling.dfy` | from the event words epoll_wait reports to the callbacks they call, over every run |
| `Teardown.dfy`, `Progress.dfy`, `ForcedClose.dfy` | teardown within three drains, freedom from deadlock, forced close and connections beyond the limit |
| `ServerDestructor.dfy`, `Scenario.dfy` | what ~TcpServer leaves behind, and runs that exist |
| `Messages.dfy` | when a message meets a connection that is down, over every run |
| `RaceModel.dfy` | forceClose and shutdown with their test and their assignment as two steps |
| `WakeupModel.dfy`, `QueueRefinement.dfy` | the loop among threads: push, test, wakeup and swap as separate steps; every run of the server has the queue of such a run |
| `BatchModel.dfy` | what one functor, and one whole drain, does to the values behind all the objects |
| `Reactor.dfy` | Channel, Poller, EventLoop, Acceptor, MyServer, TcpServer and TcpConnection as classes, method by method, each proved to do to its fields what the functions above do to values |
| `Refinement.dfy` | the step machine's steps add up to what the classes do in one call: a dispatch, a functor, a drain |
| `BufferLayout.dfy`, `Buffer.dfy`, `BufferClients.dfy` | the Buffer class over an array, its layout and space bound, and programs that read lines and typed values with it |
| `Codec.dfy`, `Framing.dfy` | network-order integers and CRLF lines |
| `Bmp.dfy`, `BmpFormat.dfy` | row flip and one-bit unpacking; which pictures the unpacker reads, and the writers write, as the format means them |

Conventions that matter when reading the theorems:

- The answer of `isInLoopThread()` is an argument (`inLoop`) of every step that can reach `runInLoop`,
  and may differ from step to step. The lifecycle results therefore hold both for a loop that runs on
  the thread that constructed it, as the header asks (src/Network/include/EventLoop.h:36-41), and for
  the shipped wiring, where `loop()` starts a fresh thread (src/Network/src/EventLoop.cpp:68-72) and
  the test is false inside the loop.
- The kernel is an adversary. Event bits, short writes, EWOULDBLOCK, broken pipes and failed reads are
  inputs. What it must respect: accept returns a descriptor that is not open; a failed write transfers
  nothing; a write after the write side was shut fails with EPIPE; epoll reports only descriptors it was
  told to watch; epoll_ctl refuses ADD of a present descriptor and MOD or DEL of an absent one.
- User calls (send, shutdown, forceClose, keeping or dropping a pointer) may come between any two
  steps, also between the two callbacks of handleClose, which is how re-entrant callbacks appear.
- `wire`, `accepted`, `log` and `heard` are history: bytes the kernel took, bytes sendInLoop agreed to
  deliver, the callbacks of one connection, and its state at each message callback. `LIFE` is UP, DOWN, close callback, connectDestroyed, destructor.
- `Inv` is the invariant of the server; `RunKeepsInv` proves it in every state reachable from `Initial`.

Where the code and what surrounds it disagree, the code is followed:

- `Poller::updateChannel` ignores a deleted channel that asks to be watched again
  (src/Network/src/Poller.cpp:133-138). `ClientAgreesIff` says exactly which sequences of channel
  operations survive that; `InterestAgrees` says the connection protocol is one of them.
- With the loop on a thread of its own, a functor queued, or a quit requested, by the constructing
  thread while the loop polls is not announced (`SilentPushIsLost`, `SilentQuitIsLost`). For functors
  `NoWakeupLostIff`, and for quits `NoQuitLostIff`, say exactly which wirings lose nothing. A quit
  requested before the loop's own reset is forgotten (`EarlyQuitIsForgotten`), and no other
  (`QuitForgottenIff`).
- `~TcpServer` runs or queues `connectDestroyed` for connections at any point of their life, though it
  "should be called only once" (src/Network/src/TcpConnection.h:82). Run at once, it tears a connection
  down in order, once, with nothing left to come, exactly if that is kConnected (`DestroyedNowIff`);
  queued, exactly if it is kConnected, or waits to be established and there is room
  (`DestroyedLaterIff`). Half-closing ones stay registered, one still to be established is established
  after it was destroyed, and closed ones are destroyed twice: `HalfClosingStaysWatched`,
  `ConnectingIsRevived` and `ClosedIsDestroyedTwice` give runs. All other theorems are about runs before
  the server is destroyed.
- `forceClose` and `shutdown` test `state_` and assign it in two accesses
  (src/Network/src/TcpConnection.cpp:133-135, 152-154). If the connection is closed in between, DOWN can
  be delivered twice and a freed connection's raw pointer can stay queued (`ForceCloseTooLate`,
  `ShutdownTooLate`). `LifecycleSurvivesIff` and `ShutsSurviveIff` say exactly when nothing is lost. In
  all other models the whole call is one step.
- A message can reach the user after DOWN: a hang-up without EPOLLIN closes the connection, and the read
  callback of the same dispatch still runs (src/Network/src/Channel.cpp:96-112). `LateMessageIff` says
  over all runs that this is the only way, by the word last reported for its descriptor, and `MessageAfterDown` gives a run.
- `readInt64` is documented to need sizeof(int32_t) bytes (src/Network/src/Buffer.h:253); it needs
  eight, and that is what `ReadInt` requires.
- `RawToBmp` rejects its arguments only when both are null (src/Tools/src/bmp.cpp:306).
- The one-bit unpacker takes rows to be packed to whole bytes (src/Tools/src/bmp.cpp:14-15), where the
  format pads them to four, and takes the last byte of a ragged row from its low bits
  (src/Tools/src/bmp.cpp:156-167), where the format keeps them high. `ReadsRightIff` says exactly which
  sizes it reads right: a width that is a multiple of 32, or a single row of whole bytes, or no row.
- The BMP writers do not pad their rows either (src/Tools/src/bmp.cpp:281-288). `WritesRightIff`: what
  they write is what the format reads exactly for widths that are multiples of 4 and for at most one row.
- DWORD is taken to be 4 bytes; the shipped typedef is `unsigned long` (src/Tools/include/bmp.h:11),
  which is 8 bytes on 64-bit Linux.

## Model

| member | source | states |
|---|---|---|
| ServerTheorems.Lifecycle | src/Network/src/TcpConnection.cpp:131-192 | in every run, for any event bits, re-entrant calls and isInLoopThread answers, each connection's callbacks are a prefix of UP, DOWN, close callback, connectDestroyed, destructor, and how far it has got fixes its state |
| ServerTheorems.Lifetime | src/Network/src/EventLoop.cpp:204-219 | no queued functor and no callback still to be dispatched concerns a freed connection; each has an owner in the map or in a queued connectDestroyed; a queued shutdownInLoop with its raw pointer has that owner behind it |
| ServerTheorems.ShutIsCovered | src/Network/src/TcpConnection.cpp:150-158 | FIFO order: a raw-pointer shutdownInLoop in the queue is followed by connectDestroyed unless the map still owns the connection |
| ServerTheorems.InterestAgrees | src/Network/src/Poller.cpp:122-182 | in every reachable state a channel has index cAdded exactly when epoll watches its fd for it, then with mask `events()`; it is in the table exactly when its index is not cNew; a deleted channel watches nothing; no epoll_ctl call was ever refused |
| ServerTheorems.EntriesAreLive | src/Network/src/Poller.cpp:93-102 | whatever is in the table or in epoll belongs to an existing channel with that open descriptor, and the two name the same channel |
| ServerTheorems.DescriptorHygiene | src/Network/src/TcpConnection.cpp:63-75 | live connections have distinct open descriptors; the destructor runs once, after teardown, when neither table nor epoll knows the descriptor; the next connection name is not in the map |
| ServerTheorems.WireConservation | src/Network/src/TcpConnection.cpp:83-129 | in every run, with n the sum of what write(2) returned to the connection's steps: the wire is the first n bytes of its accepted messages in order, and the output buffer the rest; a message is accepted whole unless the state is kDisconnected or, with nothing buffered and no write interest, the socket is found broken |
| Outcomes.SendAccounts | src/Network/src/TcpConnection.cpp:83-129 | for every state and outcome of write(2): what is accepted, what goes to the wire and what is buffered behind what was there; what is buffered is watched for writing |
| Outcomes.RefusedIsBuffered | src/Network/src/TcpConnection.cpp:102-125 | a send that meets EWOULDBLOCK loses nothing: the wire stays, the buffer grows by the whole message, writing is watched |
| Outcomes.SendTouches | src/Network/src/TcpConnection.cpp:83-129 | a send changes nothing else, and queues write-complete exactly if write(2) took the whole message at once |
| Outcomes.WriteAccounts | src/Network/src/TcpConnection.cpp:215-247 | exactly the n bytes taken move from the front of the buffer to the end of the wire, also on a short write; only a write that drains drops interest and finishes a half-close |
| Transitions.FollowsTable | src/Network/src/EventLoop.cpp:82-141 | in every run, each step changes each connection's state, history, write side, map entry and queued functors exactly as a table says that is written down apart from the handlers |
| Transitions.NewcomersFollowTable | src/Network/src/TcpServer.cpp:74-106 | connections come into being by accept alone, one at a time, named base ++ decimal number, mapped, then established at once or waiting for it |
| Transitions.InterestIsBacklog | src/Network/src/TcpConnection.cpp:83-129 | in every reachable state the event mask is: reading while up, writing while up with bytes left |
| Transitions.OpenExactly | src/Network/src/TcpConnection.cpp:63-75 | in every run the open descriptors are the first ones and those of the connections not freed |
| Transitions.HeldStep | src/Network/src/MyServer.cpp:55-79 | which steps make the user hold or drop a connection |
| Transitions.ListensIff | src/Network/src/TcpServer.cpp:67-71 | the acceptor reads exactly once a start has run on the loop's thread or its functor has; any other start queues that functor and nothing else |
| ServerTheorems.SilentAfterDown | src/Network/src/TcpConnection.cpp:249-266 | after DOWN, in every continuation, no byte is written, nothing is accepted and the state stays kDisconnected |
| Completion.WriteCompletion | src/Network/src/TcpConnection.cpp:94-101 | of all the steps of the server, exactly those queue a connection's write-complete callback, once each, that put the last accepted byte on its wire, and sends of an empty message that write(2) took |
| ServerTheorems.HalfClose | src/Network/src/TcpConnection.cpp:150-167 | until kDisconnected, write interest is armed exactly when bytes are buffered; when the write side is shut all accepted bytes have reached the kernel; a half-closing connection always has its shutdown done or something queued or buffered that leads to it |
| ServerTheorems.DrainShutsWrite | src/Network/src/TcpConnection.cpp:215-233 | on a half-closing connection with buffered bytes, a write shuts the write side if and only if it drains the buffer |
| ServerTheorems.Admission | src/Network/src/MyServer.cpp:55-79 | in every reachable state numConnected_ is the number of connections in kConnected or kDisconnecting, and the number in kConnected is at most the limit, which never changes |
| ServerTheorems.RunOnward | src/Network/src/TcpConnection.cpp:181-192 | along any run histories only grow, a connection keeps its name and descriptor, and nothing moves once it is down |
| ServerInvariant.RunKeepsInv | src/Network/src/EventLoop.cpp:74-107 | every step keeps names, descriptors, kernel agreement, control state, counts and the shape of every connection's life, so every reachable state has them |
| ServerInvariant.AcceptIsFresh | src/Network/src/TcpServer.cpp:74-106 | newConnection never overwrites a map entry and the accepted descriptor is in neither table |
| ServerInvariant.OwnedUntilDestroyed | src/Network/src/TcpServer.cpp:115-127 | until connectDestroyed has run, the map or a queued connectDestroyed owns the connection |
| LocalInvariant.SendKeeps | src/Network/src/TcpConnection.cpp:83-129 | sendInLoop keeps conservation, write interest and the life automaton, and touches nothing of any other connection |
| LocalInvariant.EstablishKeeps | src/Network/src/TcpConnection.cpp:169-179 | connectEstablished gives UP once, counts the connection, and leaves it up only within the limit |
| LocalInvariant.CloseBeginKeeps | src/Network/src/TcpConnection.cpp:249-262 | the first half of handleClose gives DOWN once, uncounts the connection and unregisters its interest |
| LocalInvariant.DestroyKeeps | src/Network/src/TcpConnection.cpp:181-192 | connectDestroyed run from the queue takes the channel out of the table and gives no second DOWN |
| LocalInvariant.RunningStage | src/Network/src/TcpServer.cpp:108-127 | which functor can be at the head of a connection's queue at which point of its life; connectEstablished finds kConnecting |
| Teardown.TornDownInThreeDrains | src/Network/src/TcpServer.cpp:108-127 | after DOWN, in any continuation in which three drains finish, the connection is destroyed and out of the map, the table and epoll |
| Teardown.StepDrains | src/Network/src/EventLoop.cpp:204-219 | no step postpones a teardown, and each finished drain brings it one closer |
| ServerDestructor.DestroyMapped | src/Network/src/TcpConnection.cpp:181-192 | at every point of a connection's life connectDestroyed gives DOWN if and only if it is kConnected, and leaves it out of the tables if and only if it is not kDisconnecting |
| ServerDestructor.DestroyedNowIff | src/Network/src/TcpServer.cpp:51-65 | the destructor's call run at once, then the close callback if still to come and the functors still queued: UP and DOWN first, connectDestroyed once and last, out of the tables and nothing of the connection left to run, if and only if it was kConnected |
| ServerDestructor.ConnectingNow | src/Network/src/TcpServer.cpp:51-65 | an unestablished connection is destroyed, then established, and stays registered |
| ServerDestructor.UpNow | src/Network/src/TcpServer.cpp:51-65 | a connected one is torn down; a half-closing one stays watched, or, with a forced close queued, gets its DOWN and close callback after connectDestroyed, stays in the table and is to be destroyed again |
| ServerDestructor.DownNow | src/Network/src/TcpServer.cpp:51-65 | one that is down is unregistered; a close callback still to come follows connectDestroyed; a second connectDestroyed, or the unmapping that leads to it, is queued |
| ServerDestructor.DestroyedLaterIff | src/Network/src/TcpServer.cpp:51-65 | the destructor's call queued behind everything of the connection: torn down in order, once, with nothing left to run, if and only if it was kConnected, or waits to be established and there is room |
| ServerDestructor.UpLater | src/Network/src/TcpServer.cpp:51-65 | with a forced close queued a half-closing connection is torn down before the call, and destroyed again after it |
| ServerDestructor.DownLater | src/Network/src/TcpServer.cpp:51-65 | one that is down, its close callback delivered or still to come, is destroyed in order, and to be destroyed again |
| ServerDestructor.DestroyedAgain | src/Network/src/TcpConnection.cpp:181-192 | the second connectDestroyed adds to the history and touches no table |
| ServerDestructor.ClosedIsDestroyedTwice | src/Network/src/TcpServer.cpp:51-65 | from every initial state, a run to a closed connection that the destructor destroys a second time |
| ServerDestructor.HalfClosingStaysWatched | src/Network/src/TcpServer.cpp:51-65 | from every initial state, a run to a half-closing connection that the destructor leaves watched by the kernel |
| ServerDestructor.ConnectingIsRevived | src/Network/src/TcpServer.cpp:51-65 | from every initial state, a run to a connection that is established after the destructor destroyed it |
| ForcedClose.ForceCloseTakesEffect | src/Network/src/TcpConnection.cpp:131-147 | after forceClose, in any continuation in which two drains finish, the connection has had its DOWN |
| ForcedClose.QueueStep | src/Network/src/EventLoop.cpp:130-141 | in no step of a reachable state is a functor lost or reordered: the queue grows at its end, shrinks one at a time at its head, and is swapped only when the batch is used up |
| ForcedClose.AdmittedIff | src/Network/src/MyServer.cpp:62-73 | in every run, by whatever step a connection goes up, it is left usable if and only if there was room; otherwise its forced close is already queued |
| ForcedClose.OverLimitGoesDown | src/Network/src/MyServer.cpp:62-73 | so one beyond the limit has had its DOWN in any continuation in which two drains finish |
| ForcedClose.UpByFunctor | src/Network/src/TcpServer.cpp:98-103 | a connection waiting to be established goes up when its own connectEstablished runs, and by no other step |
| Progress.NeverStuck | src/Network/src/EventLoop.cpp:82-104 | in every reachable state the loop thread can take a step even if every system call fails |
| Progress.LoopProgress | src/Network/src/EventLoop.cpp:93-103 | every loop step but the poll decreases a lexicographic measure of phase, functors left and callbacks left, and no other step raises it |
| Progress.TeardownHappens | src/Network/src/TcpConnection.cpp:249-266 | from every reachable state with a connection down, the loop alone, without further events, tears it down |
| Progress.ReclaimableIff | src/Network/src/TcpConnection.cpp:63-75 | outside a drain, a connection can be freed if and only if it is destroyed and the user holds no pointer to it |
| Scenario.FullLife | src/Network/src/Channel.cpp:91-117 | a run exists in which one dispatch calls handleClose twice and the whole history UP, DOWN, close, destroyed, freed is reached, each once |
| Scenario.MessageAfterDown | src/Network/src/Channel.cpp:96-112 | from every initial state, a run in which a message is delivered on a connection after its DOWN |
| Messages.DispatchFindsUp | src/Network/src/Channel.cpp:78-89 | in every run a dispatch starts on a connection that is up |
| Messages.LateMessageIff | src/Network/src/Channel.cpp:91-117 | over every run a connection has been handed a message after its DOWN if and only if at some step a read callback of it found bytes and the last poll had reported, for its own descriptor, EPOLLHUP without EPOLLIN |
| Polling.PollReports | src/Network/src/Poller.cpp:93-102 | a poll puts in line one dispatch for each reported descriptor, in order, with the channel registered for it and its own event word |
| Polling.EachServedOnce | src/Network/src/EventLoop.cpp:82-104 | in every run the dispatches made since the last poll and those to come are one for each reported descriptor, in order, of the channel with that descriptor, with its own word; none is left when the functors start |
| Polling.CalledByOwnWord | src/Network/src/Channel.cpp:91-117 | in every run, whatever is about to be called, the last poll reported that channel's own descriptor with bits that call for it |
| Polling.WordCalls | src/Network/src/Channel.cpp:91-117 | which bits call which callbacks of a connection, and in which order |
| Polling.GoneIsNotCalled | src/Network/src/Channel.cpp:78-89 | a tied channel whose owner is gone calls nothing |
| Polling.ReadWordCalls | src/Network/src/Channel.cpp:91-117 | the wakeup channel and the acceptor's are read exactly for EPOLLIN, EPOLLPRI or EPOLLRDHUP |
| RaceModel.LifecycleSurvivesIff | src/Network/src/TcpConnection.cpp:131-158 | with test and assignment as two steps: the lifecycle holds in every state of a run if and only if every assignment finds its connection still up |
| RaceModel.ShutsSurviveIff | src/Network/src/TcpConnection.cpp:150-158 | after fresh assignments, the next one leaves the queued raw pointers covered if and only if it queues none or the map still owns the connection |
| RaceModel.ForceCloseTooLate | src/Network/src/TcpConnection.cpp:131-138 | from every initial state, a run in which a late assignment gives a second DOWN, after connectDestroyed |
| RaceModel.ShutdownTooLate | src/Network/src/TcpConnection.cpp:150-158 | from every initial state, a run that frees a connection whose raw pointer is still queued |
| WakeupModel.FifoExactlyOnce | src/Network/src/EventLoop.cpp:130-141 | in every interleaving, executed ++ rest of the batch ++ pending == everything ever queued, and a functor queued after swap n runs in drain n + 1 exactly |
| WakeupModel.NoLostWakeup | src/Network/src/EventLoop.cpp:183-219 | whenever the loop is in the poll with a functor or a quit from anyone but a constructing thread that does not run the loop, the eventfd is raised or some thread is bound to raise it |
| WakeupModel.CounterIsWakeups | src/Network/src/EventLoop.cpp:183-202 | in every run the eventfd counter is the number of wakeups since its channel was last dispatched, capped; the dispatch leaves 0, and the poll reports the channel again only after another wakeup |
| WakeupModel.SilentPushIsLost | src/Network/src/EventLoop.cpp:68-72 | the interleaving, in the shipped wiring, in which the constructing thread's functor is not announced |
| WakeupModel.NoWakeupLostIff | src/Network/src/EventLoop.cpp:130-141 | no run loses a functor's wakeup if and only if the loop runs on its constructing thread or that thread never queues |
| WakeupModel.SilentQuitIsLost | src/Network/src/EventLoop.cpp:109-118 | the interleaving, in the shipped wiring, in which the constructing thread's quit is not announced |
| WakeupModel.NoQuitLostIff | src/Network/src/EventLoop.cpp:109-118 | no run loses a quit if and only if the loop runs on its constructing thread or that thread never quits it |
| WakeupModel.EarlyQuitIsForgotten | src/Network/src/EventLoop.cpp:74-82 | a run in which a quit is forgotten: requested before the loop thread resets the flag |
| WakeupModel.QuitForgottenIff | src/Network/src/EventLoop.cpp:74-82 | in every run, some continuation forgets a quit that is set if and only if the loop has not started |
| WakeupModel.QuitProgress | src/Network/src/EventLoop.cpp:82-118 | once quit is set every loop step brings the exit closer, no other thread undoes that, and the loop thread is never stuck |
| WakeupModel.QuitBounds | src/Network/src/EventLoop.cpp:82-118 | from then on at most one more poll returns and at most one more batch runs |
| WakeupModel.QuitReachesExit | src/Network/src/EventLoop.cpp:82-106 | from every state with quit set after the start, the loop thread by itself reaches its exit |
| PollerModel.UpdateKeepsAgreementIff | src/Network/src/Poller.cpp:122-162 | one change of mask keeps channel, table and kernel in agreement if and only if it does not revive a deleted channel or register a channel that watches nothing; no other descriptor is touched |
| PollerModel.RemoveUnregistersIff | src/Network/src/Poller.cpp:164-182 | a removal takes a channel out of table and kernel unless it is still watching, and touches nothing else |
| PollerModel.UpdateInAllCases | src/Network/src/Poller.cpp:122-162 | table, epoll list, refusals and index after an update, for every channel and poller, consistent or not |
| PollerModel.RemoveInAllCases | src/Network/src/Poller.cpp:164-182 | the same for a removal |
| PollerModel.ClientAgreesIff | src/Network/src/Poller.cpp:122-182 | over every sequence of channel operations, channel, table and kernel agree throughout if and only if a channel that stopped watching is removed before it watches again and none starts by watching nothing |
| ConnectionModel.NamesDistinct | src/Network/src/TcpServer.cpp:79-82 | connection names made from different numbers differ |
| ConnectionModel.DecimalReadsBack | src/Network/src/TcpServer.cpp:79-82 | the number in a name is written in digits without leading zeros and reads back as itself |
| Reactor.Channel.EnableReading | src/Network/include/Channel.h:45 | the new event mask, channel index, table and epoll list |
| Reactor.Channel.EnableWriting | src/Network/include/Channel.h:47 | the same for write interest, the read bits unchanged |
| Reactor.Channel.DisableWriting | src/Network/include/Channel.h:48 | the same for dropping write interest |
| Reactor.Channel.DisableAll | src/Network/include/Channel.h:49 | the same for dropping all interest |
| Reactor.Channel.IsNoneEvent | src/Network/include/Channel.h:58 | true exactly when neither read nor write interest is set |
| Reactor.Channel.Remove | src/Network/src/Channel.cpp:69-76 | out of the table if it watches nothing, untouched otherwise |
| Reactor.Poller.Update | src/Network/src/Poller.cpp:105-120 | one epoll_ctl: refused exactly for ADD of a watched and MOD or DEL of an unwatched descriptor, and then nothing changes; otherwise the descriptor is watched with the channel's mask, or no longer, and no other entry changes |
| Reactor.Poller.FillActiveChannels | src/Network/src/Poller.cpp:93-102 | each reported channel gets the bits reported for it; the list of active channels grows by them in order |
| Reactor.Poller.UpdateChannel | src/Network/src/Poller.cpp:122-162 | table, epoll list and index after an update, early returns included |
| Reactor.Poller.RemoveChannel | src/Network/src/Poller.cpp:164-182 | table, epoll list and index after a removal, refusals included |
| Reactor.EventLoop.QueueInLoop | src/Network/src/EventLoop.cpp:130-141 | the functor is last in the queue, and the eventfd is written if the caller is not on the loop thread or functors are running |
| Reactor.EventLoop.HandleRead | src/Network/src/EventLoop.cpp:194-202 | the eventfd counter is read to zero |
| Reactor.EventLoop.RunTask | src/Network/src/EventLoop.cpp:215-217 | one functor really run on its objects: the values behind all of them change as the functor's specification says, everything else is untouched |
| Reactor.EventLoop.DoPendingFunctors | src/Network/src/EventLoop.cpp:204-219 | the batch found is really run on the objects: the outcome is that of performing each of its functors once and in order; what they queue is pending afterwards |
| Reactor.Acceptor.Listen | src/Network/src/Acceptor.cpp:31-37 | the acceptor's channel reads, registered with the poller |
| Reactor.TcpServer.Start | src/Network/src/TcpServer.cpp:67-71 | listening now, or queued |
| Reactor.MyServer.OnConnection | src/Network/src/MyServer.cpp:55-79 | counter, callbacks, the first admitted connection as host and, over the limit, shutdown and forced close |
| Reactor.TcpServer.NewConnection | src/Network/src/TcpServer.cpp:74-106 | the new object, its name, its map entry, the next number, and its establishment run or queued |
| Reactor.TcpServer.RemoveConnection | src/Network/src/TcpServer.cpp:108-113 | close callback: unmapped at once, or queued to be |
| Reactor.TcpServer.RemoveConnectionInLoop | src/Network/src/TcpServer.cpp:115-127 | the map loses the name and connectDestroyed is queued |
| Reactor.TcpConnection.constructor | src/Network/src/TcpConnection.cpp:36-61 | kConnecting, an unregistered channel on the descriptor, an empty buffer, no history |
| Reactor.TcpConnection.SendInLoop | src/Network/src/TcpConnection.cpp:83-129 | state, interest, queue and histories after a send, for every outcome of write(2); and outright, what is accepted, written and buffered |
| Reactor.TcpConnection.ForceClose | src/Network/src/TcpConnection.cpp:131-138 | kDisconnecting and a queued forceCloseInLoop, or nothing |
| Reactor.TcpConnection.ForceCloseInLoop | src/Network/src/TcpConnection.cpp:140-147 | handleClose, or nothing once disconnected |
| Reactor.TcpConnection.Shutdown | src/Network/src/TcpConnection.cpp:150-158 | kDisconnecting, and shutdownInLoop run or queued |
| Reactor.TcpConnection.ShutdownInLoop | src/Network/src/TcpConnection.cpp:160-167 | write side shut unless a write is pending |
| Reactor.TcpConnection.ConnectEstablished | src/Network/src/TcpConnection.cpp:169-179 | kConnected, tied, reading, UP delivered with the user's reaction |
| Reactor.TcpConnection.ConnectDestroyed | src/Network/src/TcpConnection.cpp:181-192 | channel removed, with DOWN first if it was still kConnected |
| Reactor.TcpConnection.HandleRead | src/Network/src/TcpConnection.cpp:194-213 | a message callback when read returns bytes, handleClose when it returns 0, nothing on an error |
| Reactor.TcpConnection.HandleWrite | src/Network/src/TcpConnection.cpp:215-247 | exactly the bytes written leave the front of the buffer for the wire, also on a short write; when drained, interest is dropped, completion queued and a half-close finished |
| Reactor.TcpConnection.HandleClose | src/Network/src/TcpConnection.cpp:249-266 | disconnected, interest dropped, DOWN then close callback, once |
| Reactor.TcpConnection.HandleEvent | src/Network/src/Channel.cpp:91-117 | close, read and write callbacks in that order for any event bits the poll left in the channel |
| Reactor.DispatchClosesOnce | src/Network/src/Channel.cpp:91-117 | one dispatch delivers DOWN and the close callback exactly once if the connection was up and the bits or an empty read ask for it, not at all otherwise; it writes exactly if EPOLLOUT was reported, bytes were taken and it has not closed; a message it delivers meets a connection already taken down exactly when the hang-up came without EPOLLIN |
| Refinement.DispatchRefines | src/Network/src/Channel.cpp:78-117 | for every event word, the step machine's micro steps of one dispatch, run without interruption, end in the state that the class's HandleEvent is proved to produce |
| Refinement.FillRefines | src/Network/src/Poller.cpp:93-102 | the dispatches the step machine's poll puts in line are those of the channels the class's FillActiveChannels lists, with the bits it leaves in each |
| Refinement.FunctorRefines | src/Network/src/EventLoop.cpp:215-217 | the same for a queued functor and the class's RunJob, with the close callback that may follow |
| Refinement.DrainRefines | src/Network/src/EventLoop.cpp:204-219 | SwapFunctors, one RunFunctor with its close callback for each functor found, and EndDrain end in the state that DoPendingFunctors is proved to produce |
| QueueRefinement.StepTracks | src/Network/src/EventLoop.cpp:130-141 | every step of the server moves the queue as some run of the thread-level loop does, each push, test and wakeup a step of its own |
| QueueRefinement.ServerIsLoop | src/Network/src/EventLoop.cpp:82-141 | every run of the server, its user calls made by any threads, has the queue of a run of the thread-level loop from its own initial state |
| BufferLayout.SpaceBound | src/Network/src/Buffer.h:390-409 | over any run the array never exceeds max(8 + initialSize, 2 * peak + 7), where peak is the most bytes ever wanted in it at once (for append and readFd, what is readable afterwards) |
| BufferLayout.AppendGrowsIff | src/Network/src/Buffer.h:194-201 | an append grows the array if and only if it fits neither the tail nor readable + len + 8 <= size |
| BufferLayout.AppendMoves | src/Network/src/Buffer.h:390-409 | where an append puts the content: in the tail, moved down to offset 8, or in an array it fills to the last byte |
| BufferLayout.RetrieveMoves | src/Network/src/Buffer.h:113-138 | the indices after a retrieve; both are 8 once nothing is left |
| BufferLayout.ReadFdMoves | src/Network/src/Buffer.cpp:25-57 | the indices and size after a read of n bytes, and the most one readv can return |
| BufferClass.Buffer.constructor | src/Network/src/Buffer.h:48-56 | empty content, 8 bytes of prepend room, initialSize writable |
| BufferClass.Buffer.Swap | src/Network/src/Buffer.h:61-66 | contents and layouts change places |
| BufferClass.Buffer.Append | src/Network/src/Buffer.h:182-187 | content grows at its end by exactly the data, whether or not the array grew or was compacted |
| BufferClass.Buffer.Prepend | src/Network/src/Buffer.h:354-360 | content grows at its front by exactly the data |
| BufferClass.Buffer.Retrieve | src/Network/src/Buffer.h:113-124 | content loses exactly its first len bytes; an emptied buffer resets its indices |
| BufferClass.Buffer.RetrieveAsString | src/Network/src/Buffer.h:164-170 | what is returned ++ what stays is what was there |
| BufferClass.Buffer.HasWritten | src/Network/src/Buffer.h:209-213 | content gains the bytes already in the tail |
| BufferClass.Buffer.Unwrite | src/Network/src/Buffer.h:215-219 | content loses exactly its last len bytes |
| BufferClass.Buffer.EnsureWritableBytes | src/Network/src/Buffer.h:194-201 | room for len, content unchanged |
| BufferClass.Buffer.MakeSpace | src/Network/src/Buffer.h:390-409 | room is made by growing or sliding without losing content; its own assertions hold, also after prepends |
| BufferClass.Buffer.CopyDown | src/Network/src/Buffer.h:402-404 | the overlapping forward copy moves the whole content |
| BufferClass.Buffer.ReadFd | src/Network/src/Buffer.cpp:25-57 | content ++ first n stream bytes for every n readv may return, direct, spilled with compaction or spilled with growth; on error nothing but the saved errno |
| BufferClass.Buffer.AppendInt | src/Network/src/Buffer.h:224-248 | content grows by width bytes that, read as a plain big-endian number, are the value, or the value + 256^width if it is negative |
| BufferClass.Buffer.PeekInt | src/Network/src/Buffer.h:290-323 | the plain big-endian number at the front, less 256^width if its top bit is set |
| BufferClass.Buffer.ReadInt | src/Network/src/Buffer.h:254-284 | the same value, and the content loses exactly those bytes |
| BufferClass.Buffer.PrependInt | src/Network/src/Buffer.h:328-352 | content grows at its front by width bytes that, read as a plain big-endian number, are the value, or the value + 256^width if it is negative |
| BufferClass.PrependThenRead | src/Network/src/Buffer.h:325-352 | a prepended integer is read back and the content restored |
| BufferClass.Buffer.FindCRLF | src/Network/src/Buffer.h:80-94 | the first CRLF at or after the start, or none |
| BufferClass.Buffer.FindEOL | src/Network/src/Buffer.h:96-108 | the first line feed at or after the start, or none |
| Codec.NetworkOrder | src/Network/include/SocketOps.h:40-53 | on hosts of either byte order the stored bytes are big-endian (Appendix B of RFC 791) |
| Codec.TwosComplement | src/Network/src/Buffer.h:224-248 | the unsigned value stored is congruent to the signed one modulo 256^n, below 256^n, and in the upper half exactly for negative ones |
| Codec.EncodedValue | src/Network/src/Buffer.h:224-248 | the stored bytes, read as a plain big-endian number, are v, or v + 256^n if v is negative |
| Codec.DecodedValue | src/Network/src/Buffer.h:290-323 | what is read is the plain big-endian number of the bytes, less 256^n if its top bit is set |
| Codec.FirstCountsMost | src/Network/include/SocketOps.h:40-53 | of a big-endian number's bytes the first has the weight 256^(n-1) |
| Codec.FourBytes | src/Network/include/SocketOps.h:45-48 | four bytes as a 32-bit number, in either order |
| Codec.Ranges | src/Network/src/Buffer.h:224-248 | the values of the four widths are those of int8_t, int16_t, int32_t and int64_t |
| Codec.SwapInvolution | src/Network/include/SocketOps.h:55-68 | networkToHost undoes hostToNetwork |
| Codec.CodecRoundTrip | src/Network/src/Buffer.h:224-323 | decoding an encoded signed value returns it, whatever follows |
| Codec.DecodeThenEncode | src/Network/src/Buffer.h:290-323 | every byte string is the encoding of the value it decodes to |
| Codec.TypedRoundTrip | src/Network/src/Buffer.h:221-323 | any sequence of typed appends is read back by the matching reads, leaving what came after |
| Framing.SplitThenJoin | src/Network/src/Buffer.h:80-94 | rejoining the lines with CRLF gives the stream back, and no line contains a CRLF |
| Framing.JoinThenSplit | src/Network/src/Buffer.h:126-131 | lines without CRLF are recovered from their joined form |
| Framing.ChunkingIrrelevant | src/Network/src/Buffer.h:80-94 | the lines do not depend on how the stream was cut into appends, even between a CR and its LF |
| BufferClients.TakeLines | src/Network/src/Buffer.h:80-94 | finding the first CRLF and retrieving past it, over and over, yields exactly the lines of the content and leaves the unfinished one |
| BufferClients.ReadLines | src/Network/src/Buffer.h:126-131 | appending a stream in chunks and taking lines after each yields the lines of the whole, however it was cut |
| BufferClients.AppendItems | src/Network/src/Buffer.h:221-248 | a list of typed appends leaves their encodings in order behind the content |
| BufferClients.ReadItems | src/Network/src/Buffer.h:250-284 | a list of typed reads returns what the bytes decode to and leaves the rest |
| BufferClients.AppendThenRead | src/Network/src/Buffer.h:221-323 | values appended to a buffer in any state, growing or sliding on the way, are read back as they were |
| Bmp.FlipAt | src/Tools/src/bmp.cpp:281-288 | row r of the pixel data is row h-1-r of the image |
| Bmp.PrologueFields | src/Tools/src/bmp.cpp:211-237 | file size, pixel offset, dimensions, planes and bits per pixel read back at their offsets, modulo 2^32; 256 palette entries i, i, i, 0 |
| Bmp.FlipInvolution | src/Tools/src/bmp.cpp:332-339 | flipping twice restores the image |
| Bmp.RawToBmp | src/Tools/src/bmp.cpp:293-341 | 1078 + w*h bytes: headers, grey palette, flipped rows; nothing beyond them is written; two null pointers are rejected, one faults, except a null input for an image without pixels |
| Bmp.EncodeBmp | src/Tools/src/bmp.cpp:245-291 | the same bytes in a new array of exactly that size |
| Bmp.RowSamplesAt | src/Tools/src/bmp.cpp:151-172 | sample x of a row comes from byte x/8, from its bit 7 - x%8, or w%8 - 1 - x%8 in a ragged last byte |
| Bmp.UnpackedAt | src/Tools/src/bmp.cpp:148-173 | for every width: sample (h, x) is white exactly if the bit 7 - x%8, or w%8 - 1 - x%8 in the ragged last byte, of byte x/8 of the row stored h-th from the end is set |
| Bmp.SamplesMakeByte | src/Tools/src/bmp.cpp:165-168 | a sample is 0 or 0xff, and the eight bits a byte's samples stand for, weighted 128 down to 1, make up the byte |
| Bmp.PackedAgain | src/Tools/src/bmp.cpp:156-168 | packing the samples of a byte again gives back the bits they were taken from, the whole byte for eight of them |
| Bmp.Unpack | src/Tools/src/bmp.cpp:145-175 | exactly w*h samples, those that UnpackedAt locates, all accesses in bounds |
| BmpFormat.ReadsRightIff | src/Tools/src/bmp.cpp:145-175 | the unpacked picture is the one the BMP format stores, for every picture of a size, if and only if w is a multiple of 32, or there is one row of whole bytes, or none |
| BmpFormat.EightByTwoIsMisread | src/Tools/src/bmp.cpp:12-18 | a picture of 8 by 2 samples that is read wrong |
| BmpFormat.RaggedIsMisread | src/Tools/src/bmp.cpp:156-167 | for every width that is no multiple of 8, a picture whose last sample is read from the wrong bit |
| BmpFormat.PaddedIsMisread | src/Tools/src/bmp.cpp:12-18 | for every width of whole bytes that the format pads, a picture of two or more rows whose second row is read too early |
| BmpFormat.WritesRightIff | src/Tools/src/bmp.cpp:281-288 | the file written is, for every picture of a size, the one whose samples the format reads back, if and only if w is a multiple of 4 or there is at most one row |
| BmpFormat.UnpaddedIsMiswritten | src/Tools/src/bmp.cpp:332-339 | for every width that is no multiple of 4 and two or more rows, a picture written wrong |

## Left out

- ConnectionModel.NamesDistinct: `nextConnId_` is unbounded, so a wrap-around of the 32-bit counter is not modelled.
- Reactor.EventLoop.QueueInLoop: one caller at a time; interleavings between push, test and wakeup are in `WakeupModel`.
- Reactor.TcpConnection.SendInLoop: the high-water callback, whose setter is commented out, and errno values other than the three it tells apart.
- Reactor.TcpConnection.HandleRead: message contents are not modelled; what the message callback does is a user call between steps.
- Reactor.Poller.FillActiveChannels: the loop over `activeChannels_` is the step machine's; of the channels only a connection's has its event handler among the classes.
- Bmp.RawToBmp: sizes are not negative, and input and output are different arrays.
- BufferClass.Buffer.FindCRLF: positions are offsets from `peek()`, not pointers.
- ServerTheorems.Admission: a negative limit counts as 0.
- RaceModel.Assigned: assigning `state_` and queueing what follows are one step; only the test before them is apart.
- User calls are otherwise atomic with respect to handlers: each unsynchronised access to `quit_` and `callingPendingFunctors_` is a single step.
- The destructor of a connection may run any time after its last reference is gone, where the code runs it at once.
- `MyServer::onMessage`: sends are arbitrary user calls instead.
- ServerDestructor.DestroyedNow: a callback that reaches the server after its destructor is run as if the server's members were still there.
- `~EventLoop`, and a second start of a loop that was quit.
- Real system calls, the poll timeout, resizing of the event array, logging, thread naming and priorities.
- Capacity of the byte vector as opposed to its size, and failing allocation.
- `disableReading` and a connection that is not tied: nothing in the server uses them.
- Legacy sockets (`TcpServerSocket`, `FdManager`, `Ipc`, `UdpSocket`, `TcpClientSocket`, `Network`), `DataParser`, `timeout.h` and logging: easy or dependent on libraries that are not in the repository.
- BMP file reading and the branch of `ReadPixelData` for more than one bit per pixel, which takes four bytes per pixel where the writers emit one.
