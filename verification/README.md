# Cracen2 verification model

Dafny models of the parts of the communication library cracen2 whose correctness rests on
interleavings, histories or byte layouts, with proofs over all inputs, all runs and all numbers
of participants.

* **Membership protocol** (`Protocol`, `CracenServer`, `CracenClient`, `Membership*`, `RoleMaps`,
  `StaleNeighbour`). One server,
  any number of clients, one reliable first-in-first-out link per direction and client. The
  handlers are class methods proved against step functions; the state machine over all of them
  carries one inductive invariant, from which the theorems in `MembershipTheorems` follow.
* **MPI socket** (`BoostMpi`, `MpiSteps`, `MpiTheorems`, `OneProcess`,
  `LostRank`, `CrossedLetters`). Any number of processes, each
  with its task queue, three work queues, three flags and self-reposting trackers; one task is one
  step. MPI delivers within its non-overtaking rule (section 3.5 of the MPI 3.1 standard); apart
  from that, every probe may find something, find nothing or throw, and every test of a header or
  of a body may complete, stay pending or throw. A request that has completed tests as complete
  again, with the empty status of section 3.7.3.
* **AtomicQueue**, **ThreadPool**, **CoarseGrainedLocked**. The objects, and transition systems of
  any number of threads with spurious wakeups, timeouts and `notify_one`/`notify_all`.
* **Framing and dispatch** (`Bytes`, `AsioStreaming`, `AsioDatagram`, `Tuple`, `Message`,
  `Communicator`). TCP and UDP frames, type-id dispatch, and their composition with each transport.
* **RoundRobin**. The 32-bit counter policy.

Assumptions: data endpoints are distinct, resolved, and different from the server's; every client
is constructed once and stops at most once; `from` in a handler is the sender's manager endpoint;
the width of `std::size_t` is a parameter of the codecs. I/O, clocks and scheduling are parameters
of the steps (which action comes next, who is woken, what MPI answers, which bytes arrive).

Where the code differs from what it is meant to do, the code is modelled as written and the exact
condition is proved:

* The client's removal branch compares the *sender* with the withdrawn endpoint, so no entry is
  ever removed: `NeverForgets`; `WrongMapReachable` is a run that shows it. A live,
  up-to-date client has the exact map if and only if it was never sent a `Disembody`: `MapExactIff`.
* `~ReadOnlyView` decrements and notifies without the mutex, so a waiting writer can miss its
  wakeup: `MissedWakeup` is such a run. `StrandedIff` says exactly when it happens: when the last
  exiting reader notifies between a writer's test of the counter and its wait.
* `AsioDatagramSocket::MaxMessageSize::body` leaves no room for a header, and over IPv4, which the
  socket uses, such a body cannot be sent at all: `RoundTripIff`, `MaxBodyNeedsEmptyHeader`.
* The MPI receive path tests the header's request again when the body is late, and then reads the
  sender's rank from an empty status: `WrongRankReachable` is such a run, `RankIff` says exactly
  when the rank is right.
* An exception between the header's and the body's receive shifts the pairs of its channel by one
  message until it happens again: `PairsInStream`. `CrossingReachable` is such a run, and
  `ResolvedCrosses` says what the receiver gets.
* The MPI receive path makes every custom header four bytes too long: `ResolvedIsLetter`. Typed
  dispatch is unaffected: `EndToEndMpi`.
* Round robin is fair exactly up to 2^32 endpoints: `FairIff`.

## Model

| member | source | states |
|---|---|---|
| `MembershipTheorems.ExactView` | include/cracen2/CracenServer.hpp:179-227 | in every reachable state, folding the whole server log of a live client never underflows and gives exactly the other live participants, each #(a,b)+#(b,a) times for the two roles; covers self loops, reversed and duplicate edges |
| `MembershipTheorems.TruthfulIntroductions` | include/cracen2/CracenServer.hpp:184-205 | every membership message names a client's data endpoint, and every introduction that client's own role |
| `MembershipTheorems.NoMissingHandler` | include/cracen2/CracenServer.hpp:141-232 | neither side ever throws; the next message on every link has a handler at its receiver, and `participants.at` never fails |
| `MembershipTheorems.GraphIsTheRequesters` | include/cracen2/CracenServer.hpp:145-178 | once initialised, the edges are, in order and multiplicity, the role graph of the first registered client, which was sent RoleGraphRequest |
| `MembershipTheorems.NothingInFlight` | include/cracen2/CracenClient.hpp:229-249 | after initialisation no AddRoleConnection is on its way to the server, and no Embody is ever sent before |
| `MembershipTheorems.GraphFrozen` | include/cracen2/CracenServer.hpp:142-178 | along every run the server's phase only moves forward, the register queue only grows, and the edges never change once initialised |
| `MembershipTheorems.SingleGraphRequest` | include/cracen2/CracenServer.hpp:145-151 | at most one RoleGraphRequest is ever sent, to one client |
| `MembershipTheorems.SingleRolesComplete` | include/cracen2/CracenServer.hpp:152-178 | each client is sent RolesComplete exactly once if the context is initialised and its Register handled, and otherwise not at all, although the queue is never cleared |
| `MembershipTheorems.AllEdgesAcknowledged` | include/cracen2/CracenClient.hpp:227-247 | when its constructor returns, the requester has counted one acknowledgement per edge (modulo 2^32), every other client none |
| `MembershipTheorems.NeverStalls` | include/cracen2/CracenClient.hpp:244-252 | while the server runs, no client waits in its constructor or in `stop` in a state where no message can be received |
| `MembershipTheorems.RunningIff` | include/cracen2/CracenServer.hpp:228-250 | along every run the server is running exactly until it has been closed |
| `MembershipTheorems.RunningStep` | include/cracen2/CracenServer.hpp:138-250 | no action but closing ends the server's loop, and closing does |
| `MembershipTheorems.NeverStallsOpen` | include/cracen2/CracenClient.hpp:244-252 | in a run that has not closed the server, no client is left waiting in its constructor or in `stop` with no message to receive |
| `RoleMaps.MapIsReceivedIntroductions` | include/cracen2/CracenClient.hpp:184-206 | a client's list for a role is the received introductions under that role, in order of arrival |
| `RoleMaps.Coverage` | include/cracen2/CracenClient.hpp:184-206 | for two live clients, copies listed plus copies on the way equal the number of edges joining the two roles |
| `MembershipDepartures.LiveNotWithdrawn` | include/cracen2/CracenServer.hpp:210-227 | no log sent to anybody withdraws a client that is live |
| `MembershipDepartures.WithdrawnPerEdge` | include/cracen2/CracenServer.hpp:216-224 | a client that left is withdrawn from another's log once per edge between the two roles, or not at all |
| `MembershipDepartures.RunGone` | include/cracen2/CracenServer.hpp:210-227 | along every run a log withdraws a client only after the server has handled its Disembody, and then once per edge |
| `RoleMaps.NoNeighbourMissing` | include/cracen2/CracenClient.hpp:184-206 | a live neighbour is in the map under its role or in an undelivered introduction |
| `StaleNeighbour.WrongMapReachable` | include/cracen2/CracenClient.hpp:170-181 | a concrete run of two clients from the start, after which one is live and up to date and still lists the other, which has left |
| `RoleMaps.NeverForgets` | include/cracen2/CracenClient.hpp:170-181 | along every run each list of a role map only grows at its end |
| `RoleMaps.MapOvershoot` | include/cracen2/CracenClient.hpp:163-207 | what a live, up-to-date client lists, exactly: one copy per edge of every other client that is live or that it was told has left, and of nobody else |
| `RoleMaps.ListedAndWithdrawn` | include/cracen2/CracenClient.hpp:163-207 | such a client lists every endpoint as often as the server's view says plus as often as it was withdrawn |
| `RoleMaps.MapExactIff` | include/cracen2/CracenClient.hpp:170-181 | such a client's map is exact if and only if it was never sent a Disembody |
| `MembershipTheorems.RunInv` | include/cracen2/CracenServer.hpp:137-245 | the protocol invariant holds at every position of every run |
| `MembershipSteps.ActionKeeps` | include/cracen2/CracenServer.hpp:137-245 | every action of server or client keeps the protocol invariant |
| `CracenServer.NeighbourCount` | include/cracen2/CracenServer.hpp:252-281 | `executeOnNeighbor` calls back each participant once per edge between the two roles, either way round, and nobody else |
| `CracenServer.OnRoleCount` | include/cracen2/CracenServer.hpp:252-262 | the pass over all participants visits those with the role once each, and nobody else |
| `CracenServer.OnRangeCount` | include/cracen2/CracenServer.hpp:264-274 | a range of roles visits a participant as often as its role occurs in it |
| `CracenServer.LeftRangeCount` | include/cracen2/CracenServer.hpp:279 | the left range of a role contains each far end once per edge, counting duplicates |
| `CracenServer.RightRangeCount` | include/cracen2/CracenServer.hpp:280 | the right range of a role contains each near end once per edge, counting duplicates |
| `CracenServer.CracenServer.constructor` | include/cracen2/CracenServer.hpp:104-110 | the server starts uninitialised, with no edges, participants or registrations |
| `CracenServer.CracenServer.ExecuteOnRole` | include/cracen2/CracenServer.hpp:252-262 | the loop visits the participants of the role in key order |
| `CracenServer.CracenServer.ExecuteOnRange` | include/cracen2/CracenServer.hpp:264-274 | one pass per element of the range, in order |
| `CracenServer.CracenServer.ExecuteOnNeighbor` | include/cracen2/CracenServer.hpp:276-281 | first the left range, then the right range |
| `CracenServer.CracenServer.SendToAll` | include/cracen2/CracenServer.hpp:174-177 | one message to every queued endpoint, in queue order |
| `CracenServer.CracenServer.Receive` | include/cracen2/CracenServer.hpp:141-245 | one turn of the receive loop refines the step function: new state and all messages sent, in order, for every message; the loop ends exactly at ServerClose, at a message without handler, or at the Disembody of an unknown participant, the latter two with the other fields untouched |
| `Protocol.KnownBalance` | include/cracen2/CracenServer.hpp:190-224 | in a log that never underflows, introductions equal known copies plus withdrawals |
| `CracenClient.ListsStep` | include/cracen2/CracenClient.hpp:163-207 | handling one message extends the role map exactly as it extends the received history |
| `CracenClient.CracenClient.constructor` | include/cracen2/CracenClient.hpp:214-219 | a client starts with no acknowledgements and an empty role map, before it has sent anything |
| `CracenClient.CracenClient.Start` | include/cracen2/CracenClient.hpp:221-247 | sends Register and then waits for the context |
| `CracenClient.CracenClient.SendRoleGraph` | include/cracen2/CracenClient.hpp:230-237 | one AddRoleConnection per edge in order, then RolesComplete |
| `CracenClient.CracenClient.RemoveNeighbour` | include/cracen2/CracenClient.hpp:170-181 | the loop over all roles as written: nothing is removed unless the sender is the withdrawn endpoint, and then every list loses its first entry |
| `CracenClient.CracenClient.Receive` | include/cracen2/CracenClient.hpp:163-249 | one turn of the constructor's or the management loop refines the client's step function; the constructor's loop ends exactly with RolesComplete, the other exactly with the own Disembody, and only a message without handler fails |
| `CracenClient.CracenClient.Stop` | include/cracen2/CracenClient.hpp:321-323 | sends Disembody for the own data endpoint and keeps receiving; the wait ends in Receive, with the own Disembody |
| `MpiTheorems.PairsInStream` | source/cracen2/sockets/BoostMpi.cpp:165-240 | for any interleaving of senders, the pairs matched on a channel are, one after the other, two messages in a row of those its source sent: a header and the body of the same `asyncSendTo` after an even number of headers lost to failing probes, a body and the next header after an odd number; the rest is still unmatched |
| `MpiTheorems.PairsAreLetters` | source/cracen2/sockets/BoostMpi.cpp:165-240 | on a channel where no probe failed after its header, the pairs are exactly the letters of its source, header and body, in order |
| `MpiTheorems.SentInCallOrder` | source/cracen2/sockets/BoostMpi.cpp:255-291 | the letters handed to MPI, followed by those still posted, are the letters `asyncSendTo` was called with, in order, overall and per endpoint |
| `MpiTheorems.ResolvedIsLetter` | source/cracen2/sockets/BoostMpi.cpp:115-163 | a resolved datagram whose pair does not cross two letters is a letter its source was asked to send, at the place given by the earlier pairs: same body, the sender's tag, the custom header as a prefix, four bytes too long |
| `MpiTheorems.ResolvedCrosses` | source/cracen2/sockets/BoostMpi.cpp:115-163 | a resolved datagram whose pair crosses two letters has the next letter's header as its body, and as its header what follows four bytes of a letter's body, whose first four bytes it names as the sender's tag |
| `MpiTheorems.RankIff` | source/cracen2/sockets/BoostMpi.cpp:119-143 | every resolved datagram names the source's rank if and only if the header's request did not complete in an earlier pass than the body's, and otherwise nobody's |
| `LostRank.WrongRankReachable` | source/cracen2/sockets/BoostMpi.cpp:119-159 | for any letter, a run from the start in which it is resolved with its body but without its sender's rank |
| `CrossedLetters.CrossingReachable` | source/cracen2/sockets/BoostMpi.cpp:176-225 | for any two letters, a run from the start that resolves a datagram which crosses them, after an exception behind the first header |
| `MpiTheorems.PromiseOrder` | source/cracen2/sockets/BoostMpi.cpp:173-211 | the pairs of one endpoint are resolved in the order their promises were made |
| `MpiTheorems.SendOrder` | source/cracen2/sockets/BoostMpi.cpp:89-113 | send promises are resolved in the order of posting, each once, none skipped |
| `MpiTheorems.SendStep` | source/cracen2/sockets/BoostMpi.cpp:89-113 | in every step of the send tracker each send promise gets what its own test said, in order, as far as sends and tests go |
| `MpiTheorems.OtherStep` | source/cracen2/sockets/BoostMpi.cpp:89-339 | no other step settles a send |
| `MpiTheorems.ReceiveStep` | source/cracen2/sockets/BoostMpi.cpp:117-163 | in every step of the receive tracker the front pairs end with a datagram or an exception as their own tests said, until the first that is not complete, which is noted |
| `MpiTheorems.ProbeStep` | source/cracen2/sockets/BoostMpi.cpp:175-239 | in every step of the probe tracker every tag has its turn once, in key order, with its own answers |
| `MpiTheorems.OthersUntouched` | source/cracen2/sockets/BoostMpi.cpp:89-339 | no step changes another process's promises or outcomes |
| `MpiTheorems.PromiseInOnePlace` | source/cracen2/sockets/BoostMpi.cpp:117-233 | every receive promise is at all times in exactly one of posted, probing, pending, resolved, failed by a probe or dropped by `close`, so it is resolved at most once |
| `MpiTheorems.NoForeignPromise` | source/cracen2/sockets/BoostMpi.cpp:301-322 | a promise never turns up under a tag it was not made for |
| `MpiTheorems.FlagsExact` | source/cracen2/sockets/BoostMpi.cpp:89-240 | between tasks each flag is true exactly when its tracker is posted, exactly once, and everything pending has its flag up |
| `MpiTheorems.IdleMeansDone` | source/cracen2/sockets/BoostMpi.cpp:332-339 | an event loop with an empty task queue has nothing pending, also after endpoints were closed |
| `MpiSteps.RunInv` | source/cracen2/sockets/BoostMpi.cpp:89-339 | the invariant of all processes and channels holds at every position of every run |
| `MpiSteps.MatchCore` | source/cracen2/sockets/BoostMpi.cpp:182-211 | one successful probe keeps the line of promises of every tag and the pairing on every channel |
| `MpiSteps.StrayCore` | source/cracen2/sockets/BoostMpi.cpp:182-224 | a header received for nothing keeps all earlier pairs of its channel in place |
| `MpiSteps.FailFrontCore` | source/cracen2/sockets/BoostMpi.cpp:221-224 | an exception while probing takes the oldest promise of its tag out of the line and leaves every other |
| `MpiSteps.RunTaskKeeps` | source/cracen2/sockets/BoostMpi.cpp:89-339 | every task keeps the invariant of its process |
| `MpiSteps.RunCloseKeeps` | source/cracen2/sockets/BoostMpi.cpp:332-336 | closing keeps the invariant, drops exactly the waiting promises of the tag, takes exactly them out of its line and leaves every other line as it was |
| `BoostMpi.EventLoop.SendPosted` | source/cracen2/sockets/BoostMpi.cpp:270-291 | header and body go out in this order, the send is queued, and the tracker is posted if it was not running |
| `BoostMpi.EventLoop.ReceivePosted` | source/cracen2/sockets/BoostMpi.cpp:310-319 | the promise joins its tag's queue and the probe tracker is posted if it was not running |
| `BoostMpi.EventLoop.ClosePosted` | source/cracen2/sockets/BoostMpi.cpp:332-336 | the tag's queue is erased with its promises, nothing else |
| `BoostMpi.EventLoop.TrackSend` | source/cracen2/sockets/BoostMpi.cpp:89-113 | each send promise gets the outcome of its own test, in order; the tracker reposts itself if sends are left and clears its flag otherwise |
| `BoostMpi.EventLoop.SettleFrontSends` | source/cracen2/sockets/BoostMpi.cpp:90-107 | the loop over the front sends |
| `BoostMpi.SendOutcomes` | source/cracen2/sockets/BoostMpi.cpp:90-107 | settling gives the i-th send the i-th test's outcome and leaves the others |
| `BoostMpi.EventLoop.SettleFrontSend` | source/cracen2/sockets/BoostMpi.cpp:96-106 | the front send leaves the queue with its outcome |
| `BoostMpi.EventLoop.TestFront` | source/cracen2/sockets/BoostMpi.cpp:117-155 | one test of the front pair's two requests: both complete and the datagram is read, one is noted as complete and the pair stays, or a test throws and the promise gets it |
| `BoostMpi.EventLoop.SettlePairs` | source/cracen2/sockets/BoostMpi.cpp:117-155 | the loop settles pairs from the front until one is not complete |
| `BoostMpi.EventLoop.TrackReceive` | source/cracen2/sockets/BoostMpi.cpp:115-163 | one pass: pairs end in order, each with a datagram exactly if no test threw, up to the first that is not complete, whose completed requests are noted; the tracker reposts itself or clears its flag |
| `BoostMpi.ReceiveOutcomes` | source/cracen2/sockets/BoostMpi.cpp:117-155 | what one pass makes of pairs and tests, stated on them alone |
| `BoostMpi.EventLoop.TakePair` | source/cracen2/sockets/BoostMpi.cpp:182-208 | the next two messages of the channel go with the oldest promise of the tag |
| `BoostMpi.EventLoop.PushReceive` | source/cracen2/sockets/BoostMpi.cpp:196-216 | the pair is queued and the receive tracker posted if it was not running |
| `BoostMpi.EventLoop.MatchOne` | source/cracen2/sockets/BoostMpi.cpp:182-216 | one pass of the inner loop refines the matching step |
| `BoostMpi.EventLoop.FailOldest` | source/cracen2/sockets/BoostMpi.cpp:221-224 | an exception goes to the oldest promise of the tag; a header received before it is lost |
| `BoostMpi.EventLoop.ProbeOneTag` | source/cracen2/sockets/BoostMpi.cpp:176-225 | the inner loop probes, also after exceptions, until a probe finds nothing or no promise is left, and says which |
| `BoostMpi.EventLoop.ProbeAllTags` | source/cracen2/sockets/BoostMpi.cpp:175-228 | every tag is visited once in key order, each with the answers the earlier ones left; a rerun is asked for exactly when some tag still has promises |
| `BoostMpi.ProbeOutcomes` | source/cracen2/sockets/BoostMpi.cpp:176-225 | of one tag's promises the oldest get one answer each: a pair of the source found, or the exception; the first answer that leads to nothing ends it |
| `BoostMpi.EventLoop.EraseEmpty` | source/cracen2/sockets/BoostMpi.cpp:226-232 | exactly the empty queues are erased |
| `BoostMpi.EventLoop.TrackProbe` | source/cracen2/sockets/BoostMpi.cpp:165-240 | empty queues are erased, and the tracker reposts itself or clears its flag |
| `AtomicQueue.History` | include/cracen2/util/AtomicQueue.hpp:53-86 | in every interleaving the pushed log equals the popped log followed by the contents, and the bound is kept |
| `AtomicQueue.NoLostWakeup` | include/cracen2/util/AtomicQueue.hpp:53-86 | while active, a sleeping consumer implies at most as many elements as woken consumers, a sleeping producer at most as many free slots as woken producers |
| `AtomicQueue.SleepersHaveReason` | include/cracen2/util/AtomicQueue.hpp:53-86 | with nobody on the way to the mutex, consumers sleep only on an empty queue, producers only on a full one, and never both |
| `AtomicQueue.FrozenAfterDestroy` | include/cracen2/util/AtomicQueue.hpp:92-100 | once inactive, contents and logs never change again |
| `AtomicQueue.DestroyReleasesAll` | include/cracen2/util/AtomicQueue.hpp:97-98 | when `destroy` returns, both condition variables have been notified |
| `AtomicQueue.NobodySleepsAfterDestroy` | include/cracen2/util/AtomicQueue.hpp:92-100 | from then on no thread is ever asleep again |
| `AtomicQueue.TimedOutReturns` | include/cracen2/util/AtomicQueue.hpp:76-86 | a `tryPop` whose time is over returns: nothing from an empty queue, the oldest value from another, by throwing from an inactive one |
| `AtomicQueue.EmptyPopSleeps` | include/cracen2/util/AtomicQueue.hpp:67-86 | before its time is over a thread that finds the queue empty sleeps and changes nothing |
| `AtomicQueue.TryPopReturns` | include/cracen2/util/AtomicQueue.hpp:76-86 | a sleeping `tryPop` returns by two moves of its own, whatever others do |
| `AtomicQueue.WokenCanResume` | include/cracen2/util/AtomicQueue.hpp:53-86 | a thread on its way to the mutex can always go on |
| `AtomicQueue.ActNumber` | include/cracen2/util/AtomicQueue.hpp:53-86 | how one critical section with its `notify_one` changes the number of sleeping and woken threads of each kind |
| `AtomicQueue.AtomicQueue.constructor` | include/cracen2/util/AtomicQueue.hpp:40-43 | a new queue is empty and active |
| `AtomicQueue.AtomicQueue.PushAttempt` | include/cracen2/util/AtomicQueue.hpp:53-65 | throws if inactive, waits exactly if full, appends otherwise |
| `AtomicQueue.AtomicQueue.PopAttempt` | include/cracen2/util/AtomicQueue.hpp:67-86 | throws if inactive, takes the front if there is one; otherwise gives up if it is a `tryPop` whose time is over and waits if not |
| `AtomicQueue.AtomicQueue.Deactivate` | include/cracen2/util/AtomicQueue.hpp:92-96 | clears `active` and keeps the contents |
| `ThreadPool.Drained` | include/cracen2/util/ThreadPool.hpp:24-51 | when all workers have left, every task, including those submitted by running tasks at any depth, has been executed exactly as often as asked for |
| `ThreadPool.AtMostOnce` | include/cracen2/util/ThreadPool.hpp:24-33 | tasks start in the order submitted, and at every moment none has been executed more often than submitted |
| `ThreadPool.NoTaskStranded` | include/cracen2/util/ThreadPool.hpp:24-33 | while a task is queued some worker has not left |
| `ThreadPool.WorkerCanMove` | include/cracen2/util/ThreadPool.hpp:24-33 | a worker that has not left can move on unless the queue is full |
| `ThreadPool.DrainEnds` | include/cracen2/util/ThreadPool.hpp:24-51 | after the destructor has started a run makes at most a number of steps computed from its state, and when it cannot go on, with room in the queue for what is owed, all workers have left and every task has been executed exactly as often as asked for |
| `ThreadPool.StepsDecrease` | include/cracen2/util/ThreadPool.hpp:24-33 | every step after that brings the end closer, and no step adds to the executions owed |
| `ThreadPool.FrontStarts` | include/cracen2/util/ThreadPool.hpp:24-33 | while the pool is running, a worker in its loop condition gets to the oldest queued task by its own moves and starts it |
| `ThreadPool.TaskReturns` | include/cracen2/util/ThreadPool.hpp:24-33 | a worker with room for its submissions makes them all, in order, and returns from its task |
| `ThreadPool.DrainExists` | include/cracen2/util/ThreadPool.hpp:24-51 | with room for what is owed, a pool being destroyed can always be drained until all workers have left |
| `ThreadPool.DestructDrains` | include/cracen2/util/ThreadPool.hpp:49-51 | the destructor can always start, ends the running, and leads to the end of all workers |
| `ThreadPool.ThreadPool.constructor` | include/cracen2/util/ThreadPool.hpp:37-44 | a new pool runs, with an empty queue of the largest size and as many workers as asked for, each about to test its loop condition |
| `ThreadPool.ThreadPool.Exec` | include/cracen2/util/ThreadPool.hpp:69-72 | the task goes to the end of the queue if there is room |
| `ThreadPool.ThreadPool.Run` | include/cracen2/util/ThreadPool.hpp:24-33 | one worker after the destructor started empties the queue and executes each task and all it brings about exactly as often as asked for |
| `ThreadPool.ThreadPool.SubmitAll` | include/cracen2/util/ThreadPool.hpp:69-72 | a running task's submissions are queued in order |
| `CoarseGrainedLocked.Exclusion` | include/cracen2/util/CoarseGrainedLocked.hpp:32-67 | in every reachable state at most one View is live, and then no ReadOnlyView is and `reader` is zero |
| `CoarseGrainedLocked.CountersExact` | include/cracen2/util/CoarseGrainedLocked.hpp:58-98 | `reader` is the number of live ReadOnlyViews and `writerWaiting` that of counted writers, so neither ever wraps below zero |
| `CoarseGrainedLocked.PredicateHolds` | include/cracen2/util/CoarseGrainedLocked.hpp:106-111 | a live ReadOnlyView's predicate holds of the current value |
| `CoarseGrainedLocked.ViewIsStable` | include/cracen2/util/CoarseGrainedLocked.hpp:100-111 | the value does not change while a ReadOnlyView is live, as the role map during a client's `send` |
| `CoarseGrainedLocked.WritesOnly` | include/cracen2/util/CoarseGrainedLocked.hpp:25-52 | the value changes only by a write through a live View, and then to what was written |
| `CoarseGrainedLocked.WriteSeen` | include/cracen2/util/CoarseGrainedLocked.hpp:25-81 | what is written through a View is what every later view sees until something else is written |
| `CoarseGrainedLocked.NoticeWakes` | include/cracen2/util/CoarseGrainedLocked.hpp:37-67 | `notify_all` leaves none of those it is for asleep |
| `CoarseGrainedLocked.ReaderNotForgotten` | include/cracen2/util/CoarseGrainedLocked.hpp:37-39 | for a sleeping reader that may read there is a writer that still owes the readers its notification; that writer may be stranded itself |
| `CoarseGrainedLocked.MissedWakeup` | include/cracen2/util/CoarseGrainedLocked.hpp:64-67 | a concrete reachable state in which a writer sleeps with no reader left and no notification coming |
| `CoarseGrainedLocked.StrandedIff` | include/cracen2/util/CoarseGrainedLocked.hpp:64-96 | a run that does not end inside the window strands a writer if and only if the last exiting reader's `notify_all` comes between some writer's test of the counter and its wait |
| `CoarseGrainedLocked.RunPromised` | include/cracen2/util/CoarseGrainedLocked.hpp:64-96 | without such a late notification, whoever waits for readers always has a reader left or a notification coming |
| `CoarseGrainedLocked.DoomedStays` | include/cracen2/util/CoarseGrainedLocked.hpp:92-97 | after one, no step of anybody helps the writer |
| `CoarseGrainedLocked.DoomedStrands` | include/cracen2/util/CoarseGrainedLocked.hpp:96 | and its own next move strands it |
| `CoarseGrainedLocked.RunInv` | include/cracen2/util/CoarseGrainedLocked.hpp:92-111 | the invariant of all requests holds at every position of every run |
| `CoarseGrainedLocked.CoarseGrainedLocked.constructor` | include/cracen2/util/CoarseGrainedLocked.hpp:85-90 | a new lock has no readers, no waiting writers and a free mutex |
| `CoarseGrainedLocked.CoarseGrainedLocked.Take` | include/cracen2/util/CoarseGrainedLocked.hpp:37-111 | each statement a request reaches refines its move of the transition system |
| `CoarseGrainedLocked.CoarseGrainedLocked.GetView` | include/cracen2/util/CoarseGrainedLocked.hpp:92-98 | undisturbed, `getView` gives a View that holds the mutex if there are no readers, and otherwise waits without it; the counters end as they were |
| `CoarseGrainedLocked.CoarseGrainedLocked.ResumeGetView` | include/cracen2/util/CoarseGrainedLocked.hpp:96-97 | woken and undisturbed, `getView` gives its View if there are no readers, and otherwise waits again |
| `CoarseGrainedLocked.CoarseGrainedLocked.Modify` | include/cracen2/util/CoarseGrainedLocked.hpp:41-51 | a modification replaces the value and nothing else |
| `CoarseGrainedLocked.CoarseGrainedLocked.DropView` | include/cracen2/util/CoarseGrainedLocked.hpp:37-39 | `~View` wakes the readers and frees the mutex |
| `CoarseGrainedLocked.CoarseGrainedLocked.GetReadOnlyView` | include/cracen2/util/CoarseGrainedLocked.hpp:106-111 | undisturbed, `getReadOnlyView` counts a reader exactly if the predicate holds and no writer waits, and otherwise waits; the mutex ends free |
| `CoarseGrainedLocked.CoarseGrainedLocked.DropReadOnlyView` | include/cracen2/util/CoarseGrainedLocked.hpp:64-67 | `~ReadOnlyView` uncounts a reader and wakes the writers, whoever holds the mutex |
| `AsioStreaming.StreamRoundTrip` | source/cracen2/sockets/AsioStreaming.cpp:38-67 | reading the concatenation of any frames yields exactly these frames, whatever follows them |
| `AsioStreaming.FrameLayout` | source/cracen2/sockets/AsioStreaming.cpp:125-130 | header size, header, body size and body lie in the stream in this order |
| `AsioStreaming.StreamInverse` | source/cracen2/sockets/AsioStreaming.cpp:38-67 | for any bytes, the frames read, written again, followed by the unread rest, are the bytes |
| `AsioStreaming.PrefixFree` | source/cracen2/sockets/AsioStreaming.cpp:123-140 | no frame is a proper prefix of another, and writing is injective |
| `AsioStreaming.Chunking` | source/cracen2/sockets/AsioStreaming.cpp:50-64 | however the stream is cut into pieces, the same frames are read |
| `AsioStreaming.ReadAllWritten` | source/cracen2/sockets/AsioStreaming.cpp:123-140 | what was written is read completely, with nothing left |
| `AsioStreaming.AsioStreamingSocket.constructor` | source/cracen2/sockets/AsioStreaming.cpp:11-22 | a new socket has no bytes, promises or datagrams |
| `AsioStreaming.AsioStreamingSocket.AsyncReceiveFrom` | source/cracen2/sockets/AsioStreaming.cpp:151-156 | the promise joins the end of the promise queue unless 200 wait already |
| `AsioStreaming.AsioStreamingSocket.HandleDatagram` | source/cracen2/sockets/AsioStreaming.cpp:28-37 | the oldest promise gets the datagram, or the datagram is posted again; nothing is lost |
| `AsioStreaming.AsioStreamingSocket.RunReposted` | source/cracen2/sockets/AsioStreaming.cpp:33-35 | the oldest reposted datagram goes to the oldest promise, or to the end of those reposted |
| `AsioStreaming.AsioStreamingSocket.ReceiveFrame` | source/cracen2/sockets/AsioStreaming.cpp:41-64 | one pass takes exactly the first frame off the stream |
| `AsioStreaming.AsioStreamingSocket.HandleReceive` | source/cracen2/sockets/AsioStreaming.cpp:38-67 | with more bytes, the frames at the front of the stream go to the waiting promises one by one in the order of both, and the others are posted again in their order; an error ends the reading and changes nothing else |
| `AsioStreaming.AsioStreamingSocket.HandleReads` | source/cracen2/sockets/AsioStreaming.cpp:38-67 | successive reads do the same as one, however the stream was cut |
| `AsioDatagram.RoundTripIff` | source/cracen2/sockets/AsioDatagram.cpp:32-88 | a datagram is received as sent if and only if body, header and size field fit both the transport's limit and the 65535-byte buffer |
| `AsioDatagram.UnwireWire` | source/cracen2/sockets/AsioDatagram.cpp:69-83 | taking an untruncated frame apart from its end gives back header and body |
| `AsioDatagram.WireLayout` | source/cracen2/sockets/AsioDatagram.cpp:36-38 | body, header and header size lie in the datagram in this order |
| `AsioDatagram.WireInjective` | source/cracen2/sockets/AsioDatagram.cpp:34-38 | different datagrams have different frames |
| `AsioDatagram.MaxBodyNeedsEmptyHeader` | include/cracen2/sockets/AsioDatagram.hpp:31-35 | a body of the advertised maximal size survives exactly without a header and on a transport that carries 65535 bytes; over IPv4 never |
| `AsioDatagram.Buffer.constructor` | include/cracen2/network/ImmutableBuffer.hpp:19-22 | a buffer of the asked size |
| `AsioDatagram.Buffer.Shrink` | include/cracen2/network/ImmutableBuffer.hpp:34-38 | keeps a prefix, and refuses to grow without change |
| `AsioDatagram.HandleReceive` | source/cracen2/sockets/AsioDatagram.cpp:67-84 | the in-place shrinking and copying yields exactly the datagram the frame holds; it fails exactly on an error or where the size arithmetic leaves the buffer |
| `Bytes.DecodeEncode` | source/cracen2/sockets/AsioStreaming.cpp:126-128 | a size that fits its field is read back as it was written |
| `Bytes.EncodeDecode` | source/cracen2/sockets/AsioStreaming.cpp:41-54 | any size field is the encoding of the size read from it |
| `Bytes.LowestFirst` | source/cracen2/sockets/AsioStreaming.cpp:126-128 | of a size field the bytes in front are the low ones |
| `Tuple.IndexIsFirst` | include/cracen2/util/Tuple.hpp:13-23 | `tuple_index` is the first position of the type |
| `Tuple.IndexInjective` | include/cracen2/util/Tuple.hpp:13-23 | two listed types have the same index exactly when they are the same |
| `Tuple.ContainsIff` | include/cracen2/util/Tuple.hpp:25-41 | `tuple_contains_type` holds exactly of the listed types |
| `Tuple.DuplicateFreeIsDistinct` | include/cracen2/util/Tuple.hpp:43-56 | `tuple_duplicate_free` holds exactly when no two positions are equal |
| `Tuple.DuplicateFreeIff` | include/cracen2/util/Tuple.hpp:43-56 | and exactly when every position is the index of its own type |
| `Message.CastIff` | include/cracen2/network/Message.hpp:151-177 | `cast<U>` of a message made from a T succeeds exactly when U is T, and returns the same bytes |
| `Message.DispatchByType` | include/cracen2/network/Message.hpp:100-201 | visiting a message made from a listed type calls the functor added last for it with its bytes, and fails exactly when there is none |
| `Message.AddedServes` | include/cracen2/network/Message.hpp:100-132 | adding a functor replaces its type's entry and no other |
| `Message.Visitor.constructor` | include/cracen2/network/Message.hpp:50-60 | a new visitor has an empty entry per listed type |
| `Message.Visitor.Add` | include/cracen2/network/Message.hpp:100-132 | writes the functor at its type's index, within the array |
| `Message.Visitor.AddAll` | include/cracen2/network/Message.hpp:134-143 | the finished table holds for every type the functor added last |
| `Message.Visitor.VisitMessage` | include/cracen2/network/Message.hpp:179-201 | calls the entry of the message's id with its body, or reports that there is none, or that the id is beyond the table |
| `Communicator.EndToEnd` | include/cracen2/network/Communicator.hpp:84-184 | over any transport that keeps the body and the header's two bytes, sending and visiting calls the functor for the sent type with the sent bytes |
| `Communicator.EndToEndTcp` | source/cracen2/sockets/AsioStreaming.cpp:38-140 | any sequence of sends over a TCP stream arrives as as many datagrams in order, each dispatched to the functor for its type |
| `Communicator.ReceiveStream` | source/cracen2/sockets/AsioStreaming.cpp:28-156 | through the socket, in whatever pieces the stream arrives and with enough promises waiting, the i-th promise gets the i-th value sent and calls the functor for its type |
| `Communicator.EndToEndUdp` | source/cracen2/sockets/AsioDatagram.cpp:32-88 | the same for a UDP datagram whose parts fit the transport and the receive buffer |
| `Communicator.EndToEndMpi` | source/cracen2/sockets/BoostMpi.cpp:115-291 | in every reachable MPI state, a resolved datagram that does not cross two letters is dispatched to the functor for the value its source sent in the same place, from whichever of its sockets, four extra header bytes notwithstanding; it names that socket's tag, and the rank under `RankIff`'s condition |
| `Communicator.HeaderRoundTrip` | include/cracen2/network/Communicator.hpp:84-121 | the received header and body are the message that was sent |
| `Communicator.HeaderIsIndex` | include/cracen2/network/Communicator.hpp:87-89 | the header is two bytes that read as the position of the type |
| `Communicator.TypedReceiveIff` | include/cracen2/network/Communicator.hpp:112-147 | `receive<U>` returns the sent bytes exactly when U is the type that was sent |
| `Communicator.Receive` | include/cracen2/network/Communicator.hpp:167-184 | notes the sender for the functors, then dispatches the message read from the datagram |
| `RoundRobin.Fairness` | include/cracen2/send_policies/round_robin.hpp:19-33 | in k calls with an unchanged list of n <= 2^32 endpoints, from any counter, each position is picked between floor(k/n) and ceil(k/n) times |
| `RoundRobin.FairIff` | include/cracen2/send_policies/round_robin.hpp:26-31 | fair from every counter for every k and position exactly when n <= 2^32 |
| `RoundRobin.UnfairBeyondRange` | include/cracen2/send_policies/round_robin.hpp:26-31 | positions from 2^32 on are never picked |
| `RoundRobin.PicksExactly` | include/cracen2/send_policies/round_robin.hpp:19-33 | a position is first picked after its distance from the counter and then once per round |
| `RoundRobin.AdvanceCycles` | include/cracen2/send_policies/round_robin.hpp:26-31 | up to 2^32 endpoints the wrapping counter moves cyclically, from any value, also one left by a longer list |
| `RoundRobin.RoundRobin.constructor` | include/cracen2/send_policies/round_robin.hpp:14-17 | the counter starts at zero |
| `RoundRobin.RoundRobin.Run` | include/cracen2/send_policies/round_robin.hpp:19-33 | picks the role's endpoint at the counter modulo the list's length, always in range, and moves on modulo 2^32; an absent or empty list yields nothing and still counts |
| `RoundRobin.RoundRobin.RunMany` | include/cracen2/send_policies/round_robin.hpp:19-33 | consecutive calls pick the positions the fairness lemmas speak about |

## Left out

- Boost.Asio, Boost.MPI, `std::future`, threads and condition variables themselves: channels are sequences, promises are identifiers, the io_service is a task queue.
- `normalize` on wildcard addresses: endpoints are taken as resolved.
- The membership protocol over UDP: loss and reordering break the first-in-first-out links it needs.
- Interleavings inside one handler: a received message and everything its handler sends are one step; on links that only append, sending later changes nothing another party can observe.
- Clients that disembody somebody else, start twice or stop twice, and `ServerClose` sent by a client: outside the protocol's contract.
- Printing, logging, signals, demangling, stack traces, benchmarks and the `Cracen2` facade.
- AtomicQueue.AtomicQueue.PushAttempt: one evaluation of the wait predicate and the critical section behind it; the wait loop around it is the thread system's Call, Asleep and Resume.
- AtomicQueue.AtomicQueue.PopAttempt: the same.
- CoarseGrainedLocked.ReaderNotForgotten: does not claim that a waiting reader gets its view in the end, because a writer that misses its wakeup never notifies; StrandedIff says when that happens.
- CoarseGrainedLocked.CoarseGrainedLocked.Take: counters are unbounded, because CountersExact bounds them by the number of requests.
- CoarseGrainedLocked.CoarseGrainedLocked.GetView: the undisturbed sequence up to its return or its wait; interleavings are the transition system's.
- CoarseGrainedLocked.CoarseGrainedLocked.GetReadOnlyView: the same.
- ThreadPool.Drained: a task that throws or never returns is not modelled, and neither is the promise `async` wraps around a task.
- ThreadPool.WorkerCanMove: tasks that fill the queue from inside all workers block the pool; that takes 2^64 queued tasks.
- ThreadPool.ThreadPool.Run: the loop of a single worker after the destructor started; several workers and earlier submissions are covered by the thread system.
- ThreadPool.ThreadPool.Exec: reports a full queue instead of waiting, which takes 2^64 queued tasks.
- CracenClient.CracenClient.Stop: joining the management thread and closing the sockets.
- AsioStreaming.AsioStreamingSocket.HandleDatagram: does not promise datagram order across retries, because two waiting datagrams can swap; conservation and promise order are proved.
- AsioStreaming.AsioStreamingSocket.HandleReceive: the size field is taken to arrive as a whole; a frame is read when all of it has arrived, where the source blocks its event loop in mid-frame, and an exception there is not modelled.
- AsioStreaming.AsioStreamingSocket.AsyncReceiveFrom: reports a full promise queue instead of waiting; the waiting is AtomicQueue's.
- AsioDatagram.HandleReceive: where the source computes an address outside its buffer the model reports failure.
- BoostMpi.EventLoop.SendPosted: the one-byte allocation of the header buffer is not modelled; the header is a byte sequence.
- BoostMpi.EventLoop.TestFront: the four bytes copied from behind the header are arbitrary, and Boost.MPI is taken to pass on the statuses MPI gives, keeping none.
- BoostMpi.EventLoop.FailOldest: an allocation failure while a pair is queued, after its body's receive was posted and its promise moved, ends the source's event loop and is no outcome of the model.
- BoostMpi.EventLoop.ProbeOneTag: where only one message is left behind a lost header, the source blocks and the model takes the probe as finding nothing yet.
- BoostMpi.EventLoop.MatchOne: header and body of a letter become visible together, as the source blocks for the body after it has found the header.
- `BoostMpiSocket::bind`, `EndpointFactory` and the rebinding in `asyncSendTo` to tag 0.
- Message.DispatchByType: a value is represented by its bytes; `BufferAdapter` and the `adapter` files are not part of this model. Tag lists have at most 2^16 types, the range of `Header::typeId`.
- RoundRobin.RoundRobin.RunMany: speaks of one policy object; `CracenClient::send` takes its policy by value, so the counter does not persist across calls there. The broadcast policies are not part of this model.
