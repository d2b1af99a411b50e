# Freenet core, verified models

Dafny 4.11 models of the stateful parts of a Freenet node and of its network monitor, with proofs about
whole runs. `dafny verify dfyconfig.toml` checks everything.

Each component has two layers. A pure layer gives the component's state as a datatype and every step as a
function; the theorems quantify over all runs, interleavings, executors, random draws and inputs of that
layer. Where the original updates state in place, a class with the original's fields, and its loops where
it has them, is proved method by method to compute exactly those functions, so the theorems are theorems
about the code that changes the state.

| file | component |
|---|---|
| Messages.dfy | events, replies, delegate messages, identifiers |
| FairQueue.dfy | round-robin queue of contract events, with per-contract and global limits |
| ContractLoop.dfy | the contract event loop: drain, notify, pop, settle the caller |
| DelegateLoop.dfy | running a delegate, serving its contract requests, relaying its messages |
| Stores.dfy | what an executor that keeps its word does, and what that makes of a delegate's requests |
| ContractAnswers.dfy | what the loop's answers mean with such an executor: reads see writes, listeners, errors |
| RequestProtocol.dfy | request router and the order route, register, start, send the result, complete, clean up |
| Sessions.dfy | the session actor: waiting clients, result delivery, the cache for late registrations |
| EventIds.dfy | the contract loop with the event ids the counters draw |
| Bits.dfy, Transactions.dfy, SimulatedTime.dfy | transaction ids as 128-bit words, cutoffs, the simulation clock |
| OpLifecycle.dfy | push, pop, complete and the garbage-collection task |
| IdCounters.dfy | request, client and event ids from per-thread blocks |
| EventGenerator.dfy | the random event generator that all simulated peers run |
| Shuffle.dfy | random-order iterator over a one-pass source |
| Gateways.dfy | gateway list merging and the `--gateway` entries |
| Topology.dfy | the monitor's peer table |
| TxIndex.dfy | the monitor's indices of transaction events |

## Where the code and what is said about it differ

The models follow the code. Each promise that fails has a lemma with a concrete input and, for all inputs,
the exact condition under which it holds.

- `crates/core/src/contract.rs:63` says contract requests are filtered out of a delegate's result. They are
  not when a target delegate emits them; the client sees one exactly in that case
  (`DelegateLoop.WhatTheClientSees`).
- `crates/core/src/contract/executor.rs:715` says an upsert reports no change when the incoming state is the
  current one. `crates/core/src/contract/executor/runtime.rs:1568` reports it whenever the merge leaves the
  current state, and the put handler then answers with the incoming one: a stale put is told that its own
  state is stored (`ContractAnswers.PutAnswer`, `ContractAnswers.StalePutIsAnsweredWithItself`).
- `crates/core/src/contract/executor/runtime.rs:727-729` says a disconnect leaves no listener of the client
  behind. It is handled ahead of registrations that are queued already, and those are served later
  (`ContractAnswers.ListenerIff`, `ContractAnswers.DisconnectOvertakesRegistration`).
- `crates/core/src/node/op_state_manager.rs:2066-2067` says operations stuck in progress are collected at
  five times the time to live. They are only if the first sweep that reaches them already finds them that
  old; otherwise they are kept for ever (`OpLifecycle.NeverCollectedIff`).
- `crates/core/src/client_events.rs:2351-2358` says all peers replicate the same events. They do exactly
  until a put to an existing contract addresses one of them (`EventGenerator.LockstepIff`). The test at
  2509-2514 leaves the iteration limit at zero, where nothing is drawn (`EventGenerator.IdleSession`).
- `crates/core/src/config.rs:519-546` skips a repeated `--gateway` address, but parsing it has already
  overwritten the key file of the first one: the last key given is the one used
  (`Gateways.KeyOfCliGateway`).
- `crates/core/src/config.rs:2228-2248` builds ids from ten random bytes; byte 9 lands on byte 2, and the
  low byte stays zero (`Transactions.SameUlidIff`). The mask at `crates/core/src/message.rs:134` keeps 64 of
  the 80 bits below the time; ordering by age is not affected (`Transactions.CutoffIsAge`).
- `crates/core/src/client_events/session_actor.rs:73-74` keeps one request id per transaction and client. A
  second request of a client for the same transaction replaces the first, and one answer is sent: for the
  last one registered before the result (`Sessions.RequestAnsweredIff`), and none for one registered after it
  (`Sessions.OnceWhileCached`, `Sessions.ServedClientAsksInVain`). Line 15 says entries older than a minute
  are removed. One for which such a request stays on record never is, only evicted
  (`Sessions.AskingAgainNeverExpires`); when a late client gets a cached result is stated exactly
  (`Sessions.LateRegistrationIff`). The header at 29 and 62-63 says the cache may exceed its limit between
  messages; it never does (`Sessions.RunKeeps`).
- `crates/core/src/client_events.rs:52-68` gives each thread a block of ids and does not stop at its end: one
  more id than the block holds and it is the next thread's first (`IdCounters.LeavingTheBlockCollides`).
- De-duplication of requests (`crates/core/src/node/request_router.rs:271-285`) is lost when a request is
  routed between two steps of a completion (`RequestProtocol.DeduplicationIsLostExactly`), and a failed
  registration blocks its resource (`RequestProtocol.RefusedIsStuckForever`).
- The monitor's two transaction indices disagree after a second put request under one transaction and after
  a broadcast for an unknown contract (`TxIndex.AgreementKeptIff`), different puts can pass for repetitions of
  each other (`TxIndex.DifferentPutsOneId`, `TxIndex.EqualLengthsTellApart`), and its peer histories omit a
  reconnection reported without a transaction (`Topology.UnrecordedIff`,
  `Topology.ReconnectionIsNotRecorded`).

## Model

| member | source | states |
|---|---|---|
| `FairQueue.PushKeeps` | crates/core/src/contract/fair_queue.rs:103-147 | a push keeps lanes distinct, non-empty and within both limits; it adds exactly the one item, or changes nothing when it is refused |
| `FairQueue.PopKeeps` | crates/core/src/contract/fair_queue.rs:156-195 | a pop keeps the ring well formed and takes out exactly the head of the first lane |
| `FairQueue.EveryEventIsServed` | crates/core/src/contract/fair_queue.rs:156-195 | in every run, an event d deep in the j-th lane is served after at least j and at most j + 5000 d other pops, whatever is pushed meanwhile |
| `FairQueue.RoundRobin` | crates/core/src/contract/fair_queue.rs:156-195 | with n keys waiting, the next n pops serve each of them once, in ring order |
| `FairQueue.FifoPerKey` | crates/core/src/contract/fair_queue.rs:103-195 | over every run and for every key: held at the start plus accepted equals taken out plus still held, in order |
| `FairQueue.EmptyAcceptsAll` | crates/core/src/contract/fair_queue.rs:103-147 | an empty queue refuses nothing |
| `FairQueue.SameLaneIff` | crates/core/src/contract/fair_queue.rs:214-242 | two events share a lane exactly when they are about the same contract or neither is about any |
| `FairQueue.PopsServe` | crates/core/src/contract/fair_queue.rs:156-195 | over every run at least min(queued, pops) events are served, whatever is pushed meanwhile |
| `FairQueue.RingIsShort` | crates/core/src/contract/fair_queue.rs:72-92 | a well-formed queue has no more waiting keys than events |
| `FairQueue.PushRefines` | crates/core/src/contract/fair_queue.rs:103-147 | pushing on the map of queues plus order list is pushing on the ring |
| `FairQueue.PopRefines` | crates/core/src/contract/fair_queue.rs:156-195 | popping from the map of queues plus order list is popping from the ring |
| `FairQueue.FairEventQueue.constructor` | crates/core/src/contract/fair_queue.rs:85-92 | the new queue is valid and empty |
| `FairQueue.FairEventQueue.TryPush` | crates/core/src/contract/fair_queue.rs:103-147 | accepts exactly when neither limit is reached, and the new contents are those of the ring after the push; a refused event comes back |
| `FairQueue.FairEventQueue.Pop` | crates/core/src/contract/fair_queue.rs:156-195 | returns the ring's next event and leaves the ring after the pop; nothing exactly when empty |
| `FairQueue.FairEventQueue.StorePop` | crates/core/src/contract/fair_queue.rs:156-195 | the skipping loop, for every stored state, valid or not: which item it returns and all fields afterwards |
| `FairQueue.FairEventQueue.StorePush` | crates/core/src/contract/fair_queue.rs:103-147 | the push on the stored fields, for every stored state |
| `ContractLoop.JudgeIsProper` | crates/core/src/contract.rs:756-1267 | whatever the executor answers, the reply is of the kind the query asks for, and only fire-and-forget events are dropped without one |
| `ContractAnswers.JudgedWrite` | crates/core/src/contract.rs:880-1071 | with an executor that keeps its word, a put or update (full state or delta) leaves in the store what the contract makes of it, or what was there if the contract refuses; the reply says that the state changed exactly when it did |
| `ContractAnswers.JudgedElsewhere` | crates/core/src/contract.rs:756-1267 | an event that runs no delegate leaves every contract alone that its reply does not report as changed |
| `ContractAnswers.PutAnswer` | crates/core/src/contract.rs:905-947 | an accepted put is answered with the state now stored, exactly unless it was stale and reported as no change; then it is answered with itself |
| `ContractAnswers.StalePutIsAnsweredWithItself` | crates/core/src/contract.rs:918-921 | a put that loses is answered with itself, and the next get shows the state that won |
| `ContractAnswers.UpdateAnswer` | crates/core/src/contract.rs:981-1051 | an accepted update is answered with the state now stored; without one exactly when nothing changed and it cannot be read back |
| `ContractAnswers.GetAnswer` | crates/core/src/contract.rs:769-879 | an unknown contract is answered as not found, a known one with the stored state, and with its code exactly when asked for |
| `ContractAnswers.FailsExactly` | crates/core/src/contract.rs:756-1071 | a get, put or update reports exactly the error the executor ran into; it goes unanswered exactly when that is fatal |
| `ContractAnswers.SummaryAnswer` | crates/core/src/contract.rs:1208-1248 | summaries and deltas are the contract's own, against the summary given |
| `ContractAnswers.ServedIsSettled` | crates/core/src/contract.rs:580-584 | the answer is the settlement the caller gets; a fatal error stops the loop with the event in hand |
| `ContractAnswers.StopsExactly` | crates/core/src/contract.rs:580-584 | serving an event stops the loop exactly when the executor failed fatally |
| `ContractAnswers.EndsExactly` | crates/core/src/contract.rs:541-599 | the loop ends exactly when its channel is closed and empty where it reads it, or on a fatal error |
| `ContractAnswers.RunKept` | crates/core/src/contract.rs:534-599 | over any stretch of a run in which nobody is reported to change a contract, no delegate among them, it keeps its state and stays known |
| `ContractAnswers.GetSeesLastWrite` | crates/core/src/contract.rs:534-599 | in every run, a get served after a put or update that was answered with a state, nobody changing the contract in between, is answered with that state or with the executor's read error |
| `ContractAnswers.ShelfIsLawful` | crates/core/src/contract/executor.rs:745-771 | the laws assumed of an executor can be met |
| `ContractAnswers.ShelfIsGenerous` | crates/core/src/contract/executor.rs:745-771 | and so can those of one without limits on listeners |
| `ContractAnswers.JudgedListeners` | crates/core/src/contract.rs:1129-1163 | handling an event changes the listeners only by booking it |
| `ContractAnswers.ListenerIff` | crates/core/src/contract.rs:547-565 | in every run, a client listens to a contract only if a registration of it was served after its last disconnect was handled, and exactly then if no limit is met |
| `ContractAnswers.DisconnectOvertakesRegistration` | crates/core/src/contract.rs:550-557 | one iteration in which a disconnect is handled before the registration sent ahead of it, so that the listener stays |
| `ContractAnswers.ToldExactly` | crates/core/src/contract.rs:547-565 | an iteration tells the executor of the batch's disconnects in order and then of the served event if that is its to know, and of nothing else |
| `ContractAnswers.DelegateAnswer` | crates/core/src/contract.rs:1072-1128 | a client that runs a delegate gets what its rounds said, with contract requests exactly if a target made one |
| `ContractAnswers.NotificationsReachDelegates` | crates/core/src/contract.rs:668-704 | each notification runs its delegate once, in order, with the contract and its new state |
| `ContractAnswers.RoutedExactly` | crates/core/src/contract.rs:705-718 | what a notified delegate says is passed on whole exactly when some of it is for applications |
| `ContractLoop.RejectionIsProper` | crates/core/src/contract.rs:605-666 | a rejected event that is not a disconnect is answered with an error of the matching kind, or dropped where none is owed |
| `ContractLoop.DisconnectIsNeverRejected` | crates/core/src/contract.rs:547-598 | in every run, even one in which event ids repeat, no rejected event is a client disconnect: the drain handles it inline, and a push to an empty queue succeeds |
| `ContractLoop.IterateKeeps` | crates/core/src/contract.rs:541-599 | one turn of the loop keeps the invariant: queue well formed, every received id queued with its sender waiting or settled once |
| `ContractLoop.RunKeeps` | crates/core/src/contract.rs:534-599 | so does every run |
| `ContractLoop.LedgerBalances` | crates/core/src/contract.rs:534-599 | in every run every event sent is in exactly one place exactly once: channel, queue, settled, or the one the loop stopped on; the queued ones are exactly the waiting ones |
| `ContractLoop.SettledExactlyOnce` | crates/core/src/contract.rs:534-599 | no caller is settled twice, and a received event is settled or queued with its sender waiting, never both, never neither |
| `EventIds.NodeSettlesExactlyOnce` | crates/core/src/contract/handler.rs:307-321 | with ids drawn from the per-thread counters, unseeded and not reset, every event sent is in exactly one place and no caller is settled twice |
| `ContractLoop.IterationQueue` | crates/core/src/contract.rs:541-599 | a turn that does not end the loop pops the queue exactly once |
| `ContractLoop.RunQueue` | crates/core/src/contract.rs:541-599 | over a run the loop's queue is a run of the fair queue with one pop per turn |
| `ContractLoop.EventIsSettledInTime` | crates/core/src/contract.rs:541-599 | an event d deep in the j-th lane has its caller settled within j + 5000 d + 1 turns, whatever arrives |
| `ContractLoop.EventsAreHandled` | crates/core/src/contract.rs:541-598 | over n turns at least min(queued, n) contract events are handled, whatever arrives meanwhile |
| `ContractLoop.NotificationsAreHandled` | crates/core/src/contract.rs:566-599 | of the notifications pending at the start, at least min(backlog, 16 n) are handled in n turns, first come first served |
| `ContractLoop.ContractHandling.constructor` | crates/core/src/contract.rs:534-540 | the loop starts with an empty queue and nothing settled |
| `ContractLoop.ContractHandling.Release` | crates/core/src/contract/handler.rs:529-552 | replying or dropping removes the waiting sender and records the settlement once |
| `ContractLoop.ContractHandling.SendQueueFullResponse` | crates/core/src/contract.rs:605-666 | the rejected event is settled as the specification says |
| `ContractLoop.ContractHandling.Push` | crates/core/src/contract.rs:559-561 | queued, or rejected and settled |
| `ContractLoop.ContractHandling.ReceiveOne` | crates/core/src/contract.rs:548-565 | one received event: a disconnect is handled inline, anything else pushed |
| `ContractLoop.ContractHandling.DrainChannel` | crates/core/src/contract.rs:547-565 | drains up to the batch limit, in order |
| `ContractLoop.ContractHandling.HandleNotification` | crates/core/src/contract.rs:668-754 | runs the delegate on the notification, and hands its output over for routing exactly when there is an application message in it |
| `ContractLoop.ContractHandling.DrainNotifications` | crates/core/src/contract.rs:571-578 | handles up to sixteen notifications, in order |
| `ContractLoop.ContractHandling.Get` | crates/core/src/contract.rs:769-879 | the reply to a get: found, not found, or the executor's error |
| `ContractLoop.ContractHandling.Put` | crates/core/src/contract.rs:880-963 | the reply to a put for each outcome of the upsert; a fatal error stops the loop |
| `ContractLoop.ContractHandling.Update` | crates/core/src/contract.rs:964-1071 | the reply to an update for each outcome, the lookup after no change included |
| `ContractLoop.ContractHandling.Decide` | crates/core/src/contract.rs:756-1267 | the reply, or the drop, for every kind of event |
| `ContractLoop.ContractHandling.HandleContractEvent` | crates/core/src/contract.rs:756-1267 | handles a popped event as specified, stopping on a fatal error |
| `ContractLoop.ContractHandling.Wait` | crates/core/src/contract.rs:586-598 | blocked on an empty queue: one event is pushed or one notification handled |
| `ContractLoop.ContractHandling.ServeOrWait` | crates/core/src/contract.rs:580-598 | one event popped and handled, or the wait |
| `ContractLoop.ContractHandling.Turn` | crates/core/src/contract.rs:541-599 | one turn of the in-place loop is one step of the specification |
| `DelegateLoop.OneReplyPerRequest` | crates/core/src/contract.rs:186-437 | the next batch holds exactly one reply per request, in order, with its contract id and context, on every error path |
| `Stores.ServedWrite` | crates/core/src/contract.rs:188-389 | a put or update of a delegate is granted exactly when the contract accepts it, and then it is what the store holds; otherwise the reply gives the reason and the store keeps what it had; no other contract changes |
| `Stores.ServedGet` | crates/core/src/contract.rs:231-281 | a get is answered with the stored state, or with nothing when the contract is unknown or cannot be read |
| `Stores.LastWriteStands` | crates/core/src/contract.rs:186-437 | the last granted write of a contract in a batch is what its store holds afterwards |
| `Stores.UnwrittenIsKept` | crates/core/src/contract.rs:186-437 | a contract no request of a batch was granted to write keeps its state |
| `Stores.RoundGetSeesPuts` | crates/core/src/contract.rs:186-437 | a get of a round answers what the round's last granted put left, or what was there before; its updates come later |
| `Stores.ServedSubscribe` | crates/core/src/contract.rs:409-428 | a subscription is granted exactly when the contract is known, and registers the asking delegate and nobody else |
| `Stores.SubscribedIff` | crates/core/src/contract.rs:398-437 | after any batch a delegate is registered for a contract exactly when it was before, or it asked and some subscription for the contract was granted |
| `Stores.GrantedIffKnown` | crates/core/src/contract.rs:409-428 | a subscription of a batch is granted exactly when the contract is known when its turn comes |
| `Stores.ConverseKeeps` | crates/core/src/contract.rs:81-506 | a conversation in which no delegate writes a contract leaves it as it was |
| `Stores.ConverseListeners` | crates/core/src/contract.rs:81-506 | no conversation adds a listener |
| `DelegateLoop.OrderedIsStableSort` | crates/core/src/contract.rs:139-437 | requests are served in the stable order put, get, update, subscribe: a permutation, sorted by class, each class in emission order |
| `DelegateLoop.ServeAllSplit` | crates/core/src/contract.rs:186-437 | serving a round is serving its parts one after the other on the same store |
| `DelegateLoop.ConversationIsChained` | crates/core/src/contract.rs:81-135 | at most the limit of executions, each fed exactly the replies to the previous round, the last one asking for nothing unless cut short |
| `DelegateLoop.WhatTheClientSees` | crates/core/src/contract.rs:439-505 | the result never holds a delegate-to-delegate message, and holds a contract request exactly when a target delegate emitted one |
| `DelegateLoop.SaidExactly` | crates/core/src/contract.rs:139-169 | a message reaches the client exactly when the delegate says it to the client in some round or a target says it to anybody but a delegate |
| `DelegateLoop.ParametersAreKept` | crates/core/src/contract.rs:73-88 | later rounds run with the parameters of the first request, none if it has none |
| `DelegateLoop.MessagesAreDelivered` | crates/core/src/contract.rs:462-477 | each message reaches the delegate it is for, once, in order, with its payload and no parameters |
| `DelegateLoop.AnswersComeBackInOrder` | crates/core/src/contract.rs:473-487 | what the targets answer comes back whole and in order |
| `DelegateLoop.ContractRequestsCanReachTheClient` | crates/core/src/contract.rs:473-487 | a concrete conversation whose result holds a contract request |
| `DelegateLoop.DelegateHost.Classify` | crates/core/src/contract.rs:139-169 | sorts a round's outputs into classes, each in order |
| `DelegateLoop.DelegateHost.ServePuts` | crates/core/src/contract.rs:188-229 | serves the puts one at a time, one reply each |
| `DelegateLoop.DelegateHost.ServeGets` | crates/core/src/contract.rs:231-281 | serves the gets, one reply each, missing contracts included |
| `DelegateLoop.DelegateHost.ServeUpdates` | crates/core/src/contract.rs:288-389 | serves the updates, one reply each, unsupported data and missing contracts included |
| `DelegateLoop.DelegateHost.ServeSubscribes` | crates/core/src/contract.rs:398-437 | registers the subscriptions, one reply each |
| `DelegateLoop.DelegateHost.ClientVisible` | crates/core/src/contract.rs:478-487 | what a target's output contributes |
| `DelegateLoop.DelegateHost.Deliver` | crates/core/src/contract.rs:462-497 | delivers the delegate messages in order and collects what targets say |
| `DelegateLoop.DelegateHost.ServeRound` | crates/core/src/contract.rs:186-504 | one round has the store effect and replies of the one-at-a-time specification |
| `DelegateLoop.DelegateHost.TakeTurn` | crates/core/src/contract.rs:81-505 | one pass of the loop, its three ways out included |
| `DelegateLoop.DelegateHost.Loop` | crates/core/src/contract.rs:81-506 | the loop computes the conversation and its accumulated messages |
| `DelegateLoop.DelegateHost.HandleDelegate` | crates/core/src/contract.rs:64-506 | the whole call, with the limit of one hundred |
| `RequestProtocol.RouterRoundTrip` | crates/core/src/node/request_router.rs:309-452 | the router's maps stay inverse; a request starts an operation exactly when none is in flight for its resource; completing undoes a claim |
| `RequestProtocol.CompleteIsIdempotent` | crates/core/src/node/request_router.rs:437-452 | completing twice is completing once |
| `RequestProtocol.CompleteUndoesClaim` | crates/core/src/node/request_router.rs:309-452 | completing what was just claimed restores the router |
| `RequestProtocol.RequestRouter.constructor` | crates/core/src/node/request_router.rs:293-301 | the router starts empty |
| `RequestProtocol.RequestRouter.RouteRequest` | crates/core/src/node/request_router.rs:309-409 | joins the operation in flight or claims a new transaction; the three maps afterwards |
| `RequestProtocol.RequestRouter.CompleteOperation` | crates/core/src/node/request_router.rs:437-452 | removes the transaction, its resource and its waiters |
| `RequestProtocol.InvHolds` | crates/core/src/client_events.rs:696-730 | the protocol invariant in every state that any interleaving of requests, completions and failures reaches |
| `RequestProtocol.StepKeeps` | crates/core/src/client_events.rs:770-822 | every step of the protocol keeps it |
| `RequestProtocol.TidyStep` | crates/core/src/node/request_router.rs:437-452 | what the router still holds of a transaction whose completion has begun is always about to be removed by one in progress |
| `RequestProtocol.MailStep` | crates/core/src/contract/handler.rs:406-525 | a result is sent to the session actor only after the registration of the request that started the operation, unless that message was lost |
| `RequestProtocol.StarterIsRegistered` | crates/core/src/client_events.rs:1013-1137 | the client whose request starts an operation has registered first, and no operation is started twice |
| `RequestProtocol.StarterIsAnswered` | crates/core/src/client_events.rs:1013-1137 | whenever the actor handles the messages, the first result sends the client that started the operation exactly one response, for its own request exactly when it did not join the operation again meanwhile |
| `RequestProtocol.RegisteredIsAnswered` | crates/core/src/client_events.rs:770-822 | the same for every registered request, one that joined the operation among them: registered before the first result, it is answered by it unless the client registers another meanwhile; registered after it, and with the result still cached, it is answered at once exactly when it is the client's first |
| `RequestProtocol.NobodyJoinsACompleted` | crates/core/src/node/op_state_manager.rs:943-951 | once a completion has begun no later request is routed to its transaction |
| `RequestProtocol.CompletedIsForgotten` | crates/core/src/client_events.rs:360-375 | in every interleaving, once a completion has begun and none of the transaction is in progress, the transaction is in none of the router's three maps |
| `RequestProtocol.WaitersHold` | crates/core/src/node/request_router.rs:276-285 | in every run the waiters of a live transaction are exactly the requests routed to it |
| `RequestProtocol.StartableIffNotRefused` | crates/core/src/client_events.rs:770-790 | an unstarted live transaction can still start exactly when its registration has not failed |
| `RequestProtocol.RefusedIsStuckForever` | crates/core/src/client_events.rs:770-790 | after a failed registration the transaction stays live and unstarted in every continuation |
| `RequestProtocol.RefusedBlocksTheResource` | crates/core/src/client_events.rs:770-790 | a run in which a later request joins such a transaction |
| `RequestProtocol.DeduplicationIsLostExactly` | crates/core/src/node/request_router.rs:437-452 | one operation per resource survives a step exactly when the step does not remove another transaction's mapping |
| `RequestProtocol.TwoOperationsForOneResource` | crates/core/src/node/request_router.rs:437-452 | a run that ends with two operations for one resource |
| `Sessions.SentIff` | crates/core/src/client_events/session_actor.rs:153-342 | a message sends a client one result of a transaction exactly when it registers for a cached one it has not been sent, or waits for one that comes and has not been sent the cached one; never two |
| `Sessions.RunKeeps` | crates/core/src/client_events/session_actor.rs:153-222 | in every run: who waits has a request on record, no response carries a made-up request id, and the cache never exceeds its limit |
| `Sessions.EveryRunKeeps` | crates/core/src/client_events/session_actor.rs:127-147 | in particular in every run from the empty actor |
| `Sessions.OnceWhileCached` | crates/core/src/client_events/session_actor.rs:188-201 | while a result stays cached, a client not yet sent it is sent it exactly once if it registers, and a client already sent it never again |
| `Sessions.DeliveredIff` | crates/core/src/client_events/session_actor.rs:296-342 | a result that enters the cache and stays reaches each client at most once, and exactly those registered when it came or registering while it is cached |
| `Sessions.FirstResultReachesIff` | crates/core/src/client_events/session_actor.rs:296-342 | the first result of a transaction is sent to exactly the clients whose registration came before it |
| `Sessions.CacheShowsTheLatest` | crates/core/src/client_events/session_actor.rs:309-321 | in every run a cached result is the last that came for its transaction, and its time of use is when the transaction was last mentioned |
| `Sessions.SentIsTheLatest` | crates/core/src/client_events/session_actor.rs:224-292 | in every run whatever is sent is the last result that came for its transaction |
| `Sessions.SentIsOffRecord` | crates/core/src/client_events/session_actor.rs:250-263 | whom a result is sent to no longer waits and has no request on record |
| `Sessions.DisconnectForgets` | crates/core/src/client_events/session_actor.rs:420-433 | a disconnected client waits for nothing and has nothing on record; every other client waits as before, with its request |
| `Sessions.CachedIsAnsweredIff` | crates/core/src/client_events/session_actor.rs:167-202 | a registration is answered, for its own request, exactly when the result outlives the prune and the client has not been sent it; otherwise nothing is sent |
| `Sessions.LateRegistrationIff` | crates/core/src/client_events/session_actor.rs:452-520 | whichever of the least recently used entries a full cache drops: a client not yet sent a cached result is certain to get it on registering exactly when it is neither expired nor one of those, and can get it exactly when it is not expired and not the only one of those |
| `Sessions.LaterRegistrationIff` | crates/core/src/client_events/session_actor.rs:167-202 | in every run, a registration after the first result, with the result cached all the while, is answered at once exactly when it is the client's first for the transaction |
| `Sessions.AskingAgain` | crates/core/src/client_events/session_actor.rs:188-202 | a client that registers again for a cached result it was sent is not answered, and its request stays on record |
| `Sessions.AskingAgainNeverExpires` | crates/core/src/client_events/session_actor.rs:457-475 | from then on, whatever registrations and results follow, it is not answered and the cached result does not expire, however old, unless a full cache evicts it |
| `Sessions.ServedClientAsksInVain` | crates/core/src/client_events/session_actor.rs:188-202 | a run of three messages that gets there: register, result, register again |
| `Sessions.RequestAnsweredIff` | crates/core/src/client_events/session_actor.rs:172-178 | the answer is for the request the client registered last, so a request is answered exactly when no other of the client replaced it |
| `Sessions.FirstResultIsAnswered` | crates/core/src/client_events/session_actor.rs:250-263 | from an empty actor: a client that registered before the first result is answered, for its last request |
| `Sessions.OverwrittenRequestIsNotAnswered` | crates/core/src/client_events/session_actor.rs:172-178 | two requests of one client for one transaction, one answer |
| `Sessions.PrunedResultIsLost` | crates/core/src/client_events/session_actor.rs:452-479 | a result fetched after exactly a minute is sent, a millisecond later it is lost |
| `Sessions.EvictedResultIsLost` | crates/core/src/client_events/session_actor.rs:507-520 | the oldest of 2048 cached results is evicted by the very message that asks for it |
| `Sessions.SessionActor.constructor` | crates/core/src/client_events/session_actor.rs:127-140 | an actor with nothing on record |
| `Sessions.SessionActor.LeastRecentlyUsed` | crates/core/src/client_events/session_actor.rs:512-517 | an entry with the least time of use, however they are visited |
| `Sessions.SessionActor.EnforcePendingCapacity` | crates/core/src/client_events/session_actor.rs:507-520 | a full cache loses a least recently used entry, any other is left alone |
| `Sessions.SessionActor.DropStale` | crates/core/src/client_events/session_actor.rs:457-479 | the loop drops exactly the entries unused for more than a minute with nobody on record |
| `Sessions.SessionActor.PrunePendingResults` | crates/core/src/client_events/session_actor.rs:452-484 | stale entries go, then one more if the cache is still full |
| `Sessions.SessionActor.DeliverResultToClients` | crates/core/src/client_events/session_actor.rs:224-292 | the loop sends each client the result with its request on record and forgets these |
| `Sessions.SessionActor.CleanupTransactionEntry` | crates/core/src/client_events/session_actor.rs:486-493 | one client no longer waits; no empty waiting list is kept |
| `Sessions.SessionActor.RegisterTransaction` | crates/core/src/client_events/session_actor.rs:167-202 | a registration, answered from the cache when the client has not been sent the result |
| `Sessions.SessionActor.CacheResult` | crates/core/src/client_events/session_actor.rs:309-321 | the entry for a result, new or refreshed |
| `Sessions.SessionActor.HandleResultDelivery` | crates/core/src/client_events/session_actor.rs:296-342 | the waiting clients not yet served are sent the result, and all are marked |
| `Sessions.SessionActor.FindClient` | crates/core/src/client_events/session_actor.rs:353-362 | a client whose request on record has the id, if there is one |
| `Sessions.SessionActor.HandleDeliveryWithRequestId` | crates/core/src/client_events/session_actor.rs:345-417 | a delivery to the client of one request, or to all when there is none |
| `Sessions.SessionActor.CleanupClientTransactions` | crates/core/src/client_events/session_actor.rs:420-433 | a disconnected client waits for nothing and has no request on record |
| `Sessions.SessionActor.ProcessMessage` | crates/core/src/client_events/session_actor.rs:153-222 | a message is one step of the specification: prune, then handle |
| `Bits.OrSplit` | crates/core/src/config.rs:2246 | or-ing words works above and below a bit separately |
| `Bits.AndSplit` | crates/core/src/message.rs:135 | and-ing words works above and below a bit separately |
| `Bits.BigEndianInjective` | crates/core/src/config.rs:2235-2244 | equally many bytes make the same number exactly when they are the same bytes |
| `Transactions.UlidLayout` | crates/core/src/config.rs:2228-2248 | the word built by the shifts and ors, field by field: byte 9 over byte 2, a zero low byte |
| `Transactions.NewUlid` | crates/core/src/config.rs:2228-2248 | the id fits 128 bits, carries the time to 48 bits and has a zero low byte |
| `Transactions.SameUlidIff` | crates/core/src/config.rs:2228-2248 | two ids coincide exactly when the 48-bit times and the eight effective bytes do |
| `Transactions.DifferentBytesOneUlid` | crates/core/src/config.rs:2245-2246 | two different random draws that give one id |
| `Transactions.TypeIsWritten` | crates/core/src/message.rs:142-154 | the type replaces the low byte, leaves the time, and can be read back |
| `Transactions.TypeNumbers` | crates/core/src/message.rs:219-225 | the number each type is written as |
| `Transactions.Typed` | crates/core/src/message.rs:48-77 | a transaction keeps its time and parent and returns the type it was built with |
| `Transactions.CutoffLayout` | crates/core/src/message.rs:126-140 | the cutoff id: the cutoff time above the low 64 bits of the drawn id |
| `Transactions.Cutoff` | crates/core/src/message.rs:126-140 | its time is the drawn time less the allowance, never below zero |
| `Transactions.CutoffIsAge` | crates/core/src/message.rs:103-140 | what is not after a cutoff has the full age, and what is older is before it, for all bits, types and multipliers |
| `Transactions.EarlyCutoff` | crates/core/src/message.rs:126-140 | while the clock is below the allowance no transaction created after time zero is before the cutoff |
| `Transactions.OlderIsBefore` | crates/core/src/message.rs:184-188 | ids order by time first |
| `SimulatedTime.IssueTime` | crates/core/src/config.rs:2170-2248 | the k-th transaction of a simulation has the base time plus k, its type and its parent |
| `SimulatedTime.SaturatedTime` | crates/core/src/config.rs:2170-2200 | a clock past the last 64-bit time stands still there |
| `SimulatedTime.InOrderIff` | crates/core/src/config.rs:2170-2248 | of two transactions the earlier is the lesser exactly when the clock did not pass a multiple of 2^48 between them; they always differ |
| `SimulatedTime.SimulationIsInOrder` | crates/core/src/config.rs:2170-2248 | below 2^48 milliseconds a whole simulation is strictly increasing, for any bytes, types and parents |
| `SimulatedTime.OrderIsLostAtTheLimit` | crates/core/src/config.rs:2228-2248 | a simulation that crosses the limit and is out of order |
| `SimulatedTime.ComparesEqualIffEqual` | crates/core/src/message.rs:178-188 | in a simulation comparing equal is being equal, although the order ignores parents |
| `SimulatedTime.EqualOrderUnequalTransactions` | crates/core/src/message.rs:178-188 | in general it is not |
| `SimulatedTime.TimedOutIff` | crates/core/src/message.rs:79-113 | the transaction of draw k has timed out after n draws exactly when n - k is at least 60000 |
| `SimulatedTime.CutoffSeparates` | crates/core/src/message.rs:126-140 | a cutoff drawn in a simulation separates transactions by the number of draws since |
| `SimulatedTime.SimClock.constructor` | crates/core/src/config.rs:2125-2128 | no simulated time at first |
| `SimulatedTime.SimClock.SetTimeMs` | crates/core/src/config.rs:2155-2158 | sets the base and clears the counter |
| `SimulatedTime.SimClock.ClearTime` | crates/core/src/config.rs:2161-2164 | back to system time |
| `SimulatedTime.SimClock.ReadTimeMs` | crates/core/src/config.rs:2193-2207 | the saturated sum, without advancing |
| `SimulatedTime.SimClock.CurrentTimeMs` | crates/core/src/config.rs:2170-2188 | the same time, and the clock advances by one |
| `SimulatedTime.SimClock.DrawUlid` | crates/core/src/config.rs:2220-2253 | which of the two ways of making an id is taken, and the clock afterwards |
| `SimulatedTime.SimClock.IssueAll` | crates/core/src/message.rs:48-63 | issuing draws one by one gives the specified transactions |
| `OpLifecycle.RetryExact` | crates/core/src/node/op_state_manager.rs:1983-2062 | the second look at the held-back transactions does to each one, as often as it is listed, exactly this: forgotten if completed, timed out if stored, otherwise held back again |
| `OpLifecycle.SweepEffect` | crates/core/src/node/op_state_manager.rs:2070-2145 | what a sweep does to each transaction: held back exactly when in progress and after the absolute cutoff, otherwise forgotten |
| `OpLifecycle.StepKeeps` | crates/core/src/node/op_state_manager.rs:802-951 | every step keeps: popped operations are not stored, stored ones are known to the collector, held-back ones have timed out |
| `OpLifecycle.PopThenPush` | crates/core/src/node/op_state_manager.rs:802-941 | popping finds a stored operation; while out it is running, or completed once timed out; pushed back in time everything is as before, too late it is gone and completed |
| `OpLifecycle.PopOfNothing` | crates/core/src/node/op_state_manager.rs:906-941 | popping what is not there finds nothing, and from then on it counts as running |
| `OpLifecycle.ForgottenIff` | crates/core/src/node/op_state_manager.rs:1983-2145 | a completed operation stays on record exactly until a tick finds it held back or sweeps it |
| `OpLifecycle.FinishedIsDone` | crates/core/src/node/op_state_manager.rs:802-951 | from a finish until a tick forgets it, whatever happens, pushing the operation is ignored and popping it answers completed |
| `OpLifecycle.HeardInOrder` | crates/core/src/node/op_state_manager.rs:1538-1542 | the collector hears of operations in the order they were pushed |
| `OpLifecycle.RunKeeps` | crates/core/src/node/op_state_manager.rs:1537-2148 | so does every run of pushes, pops, completions, receptions and ticks |
| `OpLifecycle.EveryRunKeeps` | crates/core/src/node/op_state_manager.rs:1537-2148 | in particular every run from the empty state |
| `OpLifecycle.TickKeeps` | crates/core/src/node/op_state_manager.rs:1543-2148 | so does a tick |
| `OpLifecycle.TickTimesOut` | crates/core/src/node/op_state_manager.rs:2064-2145 | a tick removes only what has timed out, and with the channel drained leaves nothing older than the time to live |
| `OpLifecycle.StuckForever` | crates/core/src/node/op_state_manager.rs:1983-2085 | an operation in progress that has left the collector's set stays in progress in every continuation that does not push or complete it |
| `OpLifecycle.NeverCollectedIff` | crates/core/src/node/op_state_manager.rs:2064-2085 | an abandoned operation is collected exactly when the first sweep that reaches it finds it beyond the absolute cutoff |
| `OpLifecycle.AbandonedOperationStays` | crates/core/src/node/op_state_manager.rs:2066-2077 | a run in which one is still in progress after eleven days |
| `OpLifecycle.OpManager.constructor` | crates/core/src/node/op_state_manager.rs:235-245 | everything starts empty |
| `OpLifecycle.OpManager.PushOp` | crates/core/src/node/op_state_manager.rs:802-846 | ignored when completed, completed when in progress too long, otherwise stored and announced |
| `OpLifecycle.OpManager.PopOp` | crates/core/src/node/op_state_manager.rs:906-941 | completed, running or taken out, and the sets afterwards |
| `OpLifecycle.OpManager.Complete` | crates/core/src/node/op_state_manager.rs:943-946 | moves the transaction from in progress to completed |
| `OpLifecycle.OpManager.ReceiveOne` | crates/core/src/node/op_state_manager.rs:1538-1542 | the next announced transaction enters the set, unless its id is there |
| `OpLifecycle.OpManager.RetryDelayed` | crates/core/src/node/op_state_manager.rs:1983-2062 | the loop over the held-back transactions computes the specified state |
| `OpLifecycle.OpManager.SweepExpired` | crates/core/src/node/op_state_manager.rs:2070-2145 | the loop over the expired transactions, in whatever order, computes the specified state |
| `OpLifecycle.OpManager.Collect` | crates/core/src/node/op_state_manager.rs:1981-2148 | a tick is the specified step |
| `IdCounters.RunKeeps` | crates/core/src/client_events.rs:52-76 | over every interleaving, resets included: an index other than zero belongs to one thread, and each count issues every id from the start of its block to where it stands, once and in order |
| `IdCounters.UniqueIff` | crates/core/src/client_events.rs:52-124 | in every run, ids of a kind are unique exactly when no two counts they were drawn from overlap, from the start of the block to where the counter stands |
| `IdCounters.LeavingTheBlockCollides` | crates/core/src/client_events.rs:52-68 | when one thread has drawn n ids and a second draws one, the ids are unique exactly when n is at most the block size |
| `IdCounters.SharedBlockIsZero` | crates/core/src/config.rs:1959-1991 | two threads can share only block zero, and only after seeding |
| `IdCounters.UnseededIdsAreUnique` | crates/core/src/config.rs:1970-1991 | without seeding or resets all ids of a kind are unique, clearing seeds at will |
| `IdCounters.ResetDrawsFirst` | crates/core/src/client_events.rs:70-76 | after a reset the next id is the first of the thread's block |
| `IdCounters.ClearedStartsAfresh` | crates/core/src/config.rs:1970-1991 | a cleared thread starts new counters in an unused block and goes on with those it has |
| `IdCounters.FirstIsReserved` | crates/core/src/client_events.rs:100-115 | the reserved first client id is never issued, seeded, reset or not |
| `IdCounters.SeededThreadsCollide` | crates/core/src/config.rs:1959-1967 | two seeded threads that draw the same request id |
| `IdCounters.IdSource.ThreadIndex` | crates/core/src/config.rs:1982-1991 | the thread's index, handed out on first use |
| `IdCounters.IdSource.NextId` | crates/core/src/client_events.rs:62-68 | the id drawn and the counters afterwards |
| `IdCounters.IdSource.Reset` | crates/core/src/client_events.rs:72-75 | the counter goes back to the start of the thread's block |
| `IdCounters.IdSource.Seed` | crates/core/src/config.rs:1959-1967 | pins the thread's index to zero |
| `IdCounters.IdSource.Clear` | crates/core/src/config.rs:1970-1976 | forgets the thread's index |
| `EventGenerator.OwnershipDoesNotMatter` | crates/core/src/client_events.rs:2423-2439 | what a peer owns does not reach the random state or the contracts |
| `EventGenerator.OneStepTogetherIff` | crates/core/src/client_events.rs:2363-2455 | one iteration keeps two peers together exactly when it is not a put to an existing contract addressed to one of them |
| `EventGenerator.LockstepIff` | crates/core/src/client_events.rs:2359-2479 | two peers agree after each of the first n iterations exactly when none of these was such a put |
| `EventGenerator.CallsAreIterations` | crates/core/src/client_events.rs:2359-2460 | a call is a number of iterations, and returns nothing only when they run out |
| `EventGenerator.YieldsExactly` | crates/core/src/client_events.rs:2363-2459 | an iteration returns a request exactly when it addresses the peer and there is room for a new contract, or one exists, and for an update the peer owns it; the roll's range gives the kind, the contract is the drawn or the new one, no payload is empty |
| `EventGenerator.DrawnExists` | crates/core/src/client_events.rs:2385-2439 | the contract drawn is the one at the chosen index |
| `EventGenerator.CallReturnsTheFirst` | crates/core/src/client_events.rs:2359-2462 | a call returns the first request its iterations yield, and nothing if they run out |
| `EventGenerator.RequestsAreValid` | crates/core/src/client_events.rs:2301-2462 | over every life of a peer: each request was addressed to it, is of the rolled kind, about a contract existing by then, and an update is about one a get was answered for earlier; no iteration gives two |
| `EventGenerator.LockstepHolds` | crates/core/src/client_events.rs:2359-2479 | the half that needs no assumption on the random source: without such a put the two agree after each iteration |
| `EventGenerator.SessionsAgree` | crates/core/src/client_events.rs:2351-2460 | peers that did equally many iterations in whatever calls share random state and contracts, up to such a put |
| `EventGenerator.IdleSession` | crates/core/src/client_events.rs:2501-2531 | with no iterations allowed a session draws nothing |
| `EventGenerator.PutPartsThePeers` | crates/core/src/client_events.rs:2385-2407 | two peers that part at such a put |
| `EventGenerator.Generator.constructor` | crates/core/src/client_events.rs:2319-2327 | no contracts, no iterations, the given seed |
| `EventGenerator.Generator.RandomByteVec` | crates/core/src/client_events.rs:2472-2478 | the loop draws one more byte than the length byte says |
| `EventGenerator.Generator.ChooseExisting` | crates/core/src/client_events.rs:2340 | a contract chosen by the source, none when there are none |
| `EventGenerator.Generator.Pass` | crates/core/src/client_events.rs:2363-2459 | one pass of the loop body is one iteration of the specification |
| `EventGenerator.Generator.GenEvent` | crates/core/src/client_events.rs:2359-2462 | the loop stops at the first request for this peer or when iterations run out |
| `EventGenerator.Generator.Answered` | crates/core/src/client_events.rs:2305-2318 | an answered get makes the peer an owner |
| `Shuffle.UnpickedExists` | crates/core/src/util.rs:121-127 | whenever the rejection loop runs there is an index left to pick |
| `Shuffle.LeftPick` | crates/core/src/util.rs:117-143 | a pick moves exactly one item out of what is left |
| `Shuffle.BalancedPick` | crates/core/src/util.rs:117-143 | handed out plus left is the source, after every pick |
| `Shuffle.Shuffle.constructor` | crates/core/src/util.rs:152-164 | a fresh iterator; the size hint must be exact |
| `Shuffle.Shuffle.MemorizedKeys` | crates/core/src/util.rs:132-141 | what is memorized are the indices below the read counter that were not picked |
| `Shuffle.Shuffle.Pick` | crates/core/src/util.rs:121-127 | the rejection loop returns an index not picked before and records it |
| `Shuffle.Shuffle.ReadTo` | crates/core/src/util.rs:132-138 | reading on to the picked index memorizes each item under its own index |
| `Shuffle.Shuffle.Next` | crates/core/src/util.rs:117-143 | each call returns the source's item at a fresh index, and nothing after `size` calls; a short source gives nothing for the indices it lacks |
| `Shuffle.Collect` | crates/core/src/util.rs:112-164 | draining gives a permutation of the source, in the order of the picks |
| `Gateways.DedupIsDistinct` | crates/core/src/config.rs:1769-1778 | no address twice, none lost |
| `Gateways.MergeSplit` | crates/core/src/config.rs:1766-1778 | the left list in order, then what of the right list it does not have |
| `Gateways.MergeLaws` | crates/core/src/config.rs:1769-1778 | merging is idempotent and associative |
| `Gateways.LookupKept` | crates/core/src/config.rs:1769-1778 | every address resolves to the same entry before and after de-duplication |
| `Gateways.LeftWins` | crates/core/src/config.rs:1766-1768 | on a collision the left entry stays, any other address resolves as on the right |
| `Gateways.SkippingIsRedundant` | crates/core/src/config.rs:523-535 | skipping repeated entries in the command-line loop changes nothing |
| `Gateways.KeyOfCliGateway` | crates/core/src/config.rs:523-548 | for an address on the command line the key used is the last one given, so the first entry wins exactly when the last repeats its key |
| `Gateways.SkippedEntryReplacesTheKey` | crates/core/src/config.rs:981-1004 | two entries for one address: the second is skipped and its key is used |
| `Gateways.FilesAfterStartup` | crates/core/src/config.rs:498-549 | after start-up the command line's key files hold the last key given or are gone; every other file is as it was |
| `Gateways.LoadedGatewayIsKept` | crates/core/src/config.rs:523-549 | a loaded gateway not named on the command line keeps its entry and its key file |
| `Gateways.GatewayList.constructor` | crates/core/src/config.rs:1761-1764 | holds the given list |
| `Gateways.GatewayList.MergeAndDeduplicate` | crates/core/src/config.rs:1769-1778 | the loop computes the merge |
| `Gateways.Startup.AddCliGateways` | crates/core/src/config.rs:498-549 | the loop over the entries, its early error return included: the list, the key files, and which entry failed |
| `Topology.ListsRefineEdges` | network-monitor/src/topology.ts:16-210 | after any events the lists are duplicate-free, symmetric, closed over known peers, and are the edge set got by set insert and delete |
| `Topology.ListsAreSymmetric` | network-monitor/src/topology.ts:56-210 | two peers list each other or neither does |
| `Topology.AddLists` | network-monitor/src/topology.ts:56-144 | an addition refines inserting an edge |
| `Topology.RemoveLists` | network-monitor/src/topology.ts:171-191 | a removal refines deleting an edge, thrown part way or not |
| `Topology.HistoriesAgree` | network-monitor/src/topology.ts:146-209 | after any events the entries about a pair are the same sequence at both ends, with at most one addition per transaction |
| `Topology.PresentOnBothSides` | network-monitor/src/topology.ts:146-168 | looking at one end's history for a change is enough |
| `Topology.TrailIsWhatWasReported` | network-monitor/src/topology.ts:90-144 | a peer's location history is the sequence of reported locations without immediate repetitions |
| `Topology.ListedAsReported` | network-monitor/src/topology.ts:78-144 | after any events each listed connection is the far end of the event that listed it, with the location and transaction reported there |
| `Topology.ListedWhereItWas` | network-monitor/src/topology.ts:78-144 | so its location is one the far end has had |
| `Topology.EntriesAsReported` | network-monitor/src/topology.ts:139-209 | each history entry says what its event said: both ends, their locations, transaction and time |
| `Topology.PeersAreFiled` | network-monitor/src/topology.ts:90-144 | each peer is filed under its id, since the first event naming it, and its moves have the times of such events |
| `Topology.SessionIsItsOps` | network-monitor/src/topology.ts:16-54 | a session of messages is a sequence of events from the empty table |
| `Topology.MessageEdges` | network-monitor/src/topology.ts:16-54 | what a message does to the graph: the removal, then the current state unless the removal threw, the addition only with a transaction |
| `Topology.SilentReconnection` | network-monitor/src/topology.ts:42-44 | a reconnection without a transaction that the histories omit |
| `Topology.UnrecordedIff` | network-monitor/src/topology.ts:146-168 | a reported connection leaves the histories as they are exactly when its first end has an entry for the pair and the transaction, of either kind |
| `Topology.ReconnectionIsNotRecorded` | network-monitor/src/topology.ts:42-44 | a session from the empty table, connect, part and reconnect, that ends with the edge present and a removal last in both histories |
| `Topology.SessionRefinesGraph` | network-monitor/src/topology.ts:16-54 | all of this after any session of messages from an empty table |
| `Topology.PeerTable.constructor` | network-monitor/src/topology.ts:14 | the table starts empty |
| `Topology.PeerTable.Report` | network-monitor/src/topology.ts:90-144 | one end of an addition: the peer, its location history and its connection |
| `Topology.PeerTable.Find` | network-monitor/src/topology.ts:177-187 | the first connection to a peer, if any |
| `Topology.PeerTable.HandleAddedConnection` | network-monitor/src/topology.ts:56-169 | computes the specified table |
| `Topology.PeerTable.HandleRemovedConnection` | network-monitor/src/topology.ts:171-210 | computes the specified table, an unknown peer's throw included |
| `Topology.PeerTable.HandleCurrentState` | network-monitor/src/topology.ts:42-44 | adds the listed connections in order |
| `Topology.PeerTable.HandleChange` | network-monitor/src/topology.ts:16-54 | a message is the specified sequence of operations |
| `TxIndex.IndicesAreViews` | network-monitor/src/transactions-data.ts:12-344 | after any session both indices are views of one log: everything since the list was last restarted, and everything recorded whole |
| `TxIndex.LogRelates` | network-monitor/src/transactions-data.ts:12-344 | the two views of a transaction and a contract differ by what was lost before a restart or by half records, never both; without half records the first is a suffix of the second |
| `TxIndex.IndicesAgreeIff` | network-monitor/src/transactions-data.ts:12-344 | after any session they agree exactly when nothing was lost and nothing was half recorded |
| `TxIndex.AgreementKeptIff` | network-monitor/src/transactions-data.ts:40-194 | a report keeps agreement exactly when it is not one that is recorded and is a put request restarting a list with entries for the contract, or a broadcast for a contract without a list |
| `TxIndex.SuffixWithoutHalfRecords` | network-monitor/src/transactions-data.ts:12-344 | after a session in which no handler threw half way, a transaction's entries for a contract are a suffix of the contract's entries for it |
| `TxIndex.PutFirstAgrees` | network-monitor/src/transactions-data.ts:40-54 | a transaction that begins with its only put request is indexed alike on both sides, if no handler threw half way |
| `TxIndex.RepeatIsIgnoredIff` | network-monitor/src/transactions-data.ts:40-46 | handling a report twice is handling it once exactly for the four de-duplicating handlers and for reports that do not parse |
| `TxIndex.SameIdIff` | network-monitor/src/transactions-data.ts:34-35 | two put reports of the same parties count as repetitions exactly when they report the same change; two broadcasts always |
| `TxIndex.SuccessIsRecorded` | network-monitor/src/transactions-data.ts:57-103 | a put's success is recorded in both lists right after its request, whatever was there |
| `TxIndex.EqualLengthsTellApart` | network-monitor/src/transactions-data.ts:34-35 | when the parts of two ids have equal lengths, the ids are equal exactly when all parts are |
| `TxIndex.DifferentPutsOneId` | network-monitor/src/transactions-data.ts:34-46 | two different puts, the second dropped as a repetition |
| `TxIndex.NameReadBackIff` | network-monitor/src/transactions-data.ts:25 | a printed name is read back exactly when it does not contain the separator |
| `TxIndex.LocationReadBack` | network-monitor/src/transactions-data.ts:21-23 | a printed location is read back |
| `TxIndex.PrintedReportIsRecorded` | network-monitor/src/transactions-data.ts:12-344 | a report of a printed peer is recorded with that name and location and everything else it reports |
| `TxIndex.ParsesIff` | network-monitor/src/transactions-data.ts:21-209 | a report parses exactly when every peer whose location is read is printed with one |
| `TxIndex.ThrowsIff` | network-monitor/src/transactions-data.ts:12-344 | a handler throws exactly on an unparsable report, on a put success or broadcast of an unknown transaction, and on a new broadcast for an unknown contract |
| `TxIndex.SecondPutForgetsTheFirst` | network-monitor/src/transactions-data.ts:48 | two put requests under one transaction after which the indices disagree |
| `TxIndex.BroadcastIsRecordedHalfWay` | network-monitor/src/transactions-data.ts:178-193 | a broadcast that throws with its record in one index only |
| `TxIndex.TransactionIndex.constructor` | network-monitor/src/transactions-data.ts:8-10 | both indices start empty |
| `TxIndex.TransactionIndex.PutRequest` | network-monitor/src/transactions-data.ts:12-55 | computes the specified indices, throws included |
| `TxIndex.TransactionIndex.PutSuccess` | network-monitor/src/transactions-data.ts:57-103 | computes the specified indices, throws included |
| `TxIndex.TransactionIndex.Broadcast` | network-monitor/src/transactions-data.ts:105-194 | computes the specified indices for emitted and received broadcasts, half records included |
| `TxIndex.TransactionIndex.Append` | network-monitor/src/transactions-data.ts:196-344 | computes the specified indices for gets, subscriptions and updates |

## Left out

- The executor, the WASM runtime and the contract store: an arbitrary executor is a parameter of the loops, so nothing is proved about contract code. What is proved of stored states and listeners is for executors that meet `Stores.Lawful`; that the runtime does is not shown. It leaves out operations queued while a contract is initialized and the delegate subscriptions dropped with a contract that a failed first put removes.
- Which clients the executor routes a notified delegate's application messages to; that and what is handed to it is modelled.
- The channels to and from the session actor: a result dropped because its channel is full is a result not sent, and a response whose receiver is gone counts as sent.
- A oneshot reply whose receiver is already gone: sending it counts as settling the caller.
- When an event enters the channel relative to the loop's other work: arrivals are modelled at the points where the loop reads the channel, which a first-in-first-out channel cannot tell apart.
- RequestRouter.RouteRequest: modelled as one step, because it holds the resource's map entry throughout; a completion is modelled as its three separate map updates.
- The eight client start sites differ in the operation they build; the model keeps their common order of route, register and start.
- OpLifecycle.Step: a push is one step, although its three map updates can interleave with a tick; the per-tick retries, which take an operation out and put it back, and a closed announcement channel are not modelled.
- Two transactions with one id and different parents in OpLifecycle: an id is taken to name one operation, as ids made by one node do.
- Production ids from the ULID library and the quality of any randomness: random bytes, picks and draws are arbitrary inputs; `EventGenerator.Moves`, needed for peers to part in `EventGenerator.LockstepIff`, assumes that drawing bytes changes the generator's state.
- Shuffle.Next: takes draws in which every index comes up, because the rejection loop ends only with probability one.
- Overflow of the 64-bit counters and of the multiplier in `ttl_transaction_with_multiplier`.
- Loading gateways from files and the network, the choice between them by mode, and input-output errors while a key file is written.
- The parsed upstream peer of an emitted broadcast, which only the monitor's display uses.
- The monitor's rendering, tables and dispatch; locations are opaque values, and a peer id that is the name of a built-in object property is not treated specially.
- Sub-operation tracking, telemetry, congestion control, the transport and every other part of the repository.
