# Verification of the actor runtime

A Dafny model of the actor runtime's concurrent core, with proofs about all of its runs. Run
`dafny verify dfyconfig.toml` to check it.

Each concurrent part is a machine: a state, the atomic actions of its threads as steps, and `Exec`,
which runs any sequence of enabled steps. A theorem about every result of `Exec` is a theorem about
every interleaving. History fields (logs, counters, stamps) are written by the steps and never read by
them. The code's own form stands beside the machines: classes that change their fields in place, with
the source's loops, whose methods are proved to take the machine's steps.

| files | part of the system |
|---|---|
| `Vocabulary` | messages, references and envelopes, shared by all parts |
| `GroupModel`, `GroupInvariants`, `GroupTheorems`, `GroupShutdown`, `GroupConservation`, `GroupMembers`, `GroupSends`, `GroupLive`, `GroupWait`, `GroupLimits`, `GroupEnd`, `GroupPool` | the thread pool: clients, forwarders, shared queue, workers, receiver guard, per-actor locks, shutdown drain |
| `ActorModel`, `ActorInvariants`, `ActorTheorems`, `ActorSends`, `ActorProgress`, `ActorThread`, `ManagerRuntime` | mailboxes, contexts, `fast_send` and its reply channel, start order, the Manager |
| `Codec`, `MessageRegistry`, `Routing`, `RoutingRuns`, `RejectExample`, `SocketCache` | message tables, wire envelopes, deliver, relay and reject between processes, the sender thread's sockets |
| `TimerModel`, `TimerActorModel`, `TimerThread` | a timer against `cancel` and `drop`, and the two-timer example actor on top of it |
| `PingPong`, `PingPongRun` | the ping-pong example as a whole run |

User code appears as unknown functions: in the pool a handler maps an actor's state and an envelope to a
new state and a sequence of sends (a reply is a send to the envelope's sender); in the actor model a
running handler sends, replies, calls or returns in whatever order it likes. In the pool a handler reads
its actor's state when it starts and stores the new one when it returns, so the locks matter. The scope
of the locks is the code's: a worker in normal mode gives the receiver back before it dispatches
(src/group.rs:235-238), and a draining one keeps it, because the guard is a temporary of the `while let`
(src/group.rs:228-230, edition 2021).

## Where the code and its words differ

The model follows the code. These statements of comments and guides are not what it does, and the
project says exactly when they hold or gives a run where they do not.

- "No more Timeout messages will be sent after this call" (src/timer.rs:93): one more is sent if and only
  if the thread was past its test of the flag (`TimerModel.SendsAfterCancelIff`).
- `end` is called "after all messages are processed" (src/actor.rs:315): in a Group this holds in all runs
  if and only if there are no workers (`GroupLimits.EndIsLastIff`), because `wait` calls it before it
  joins them.  For a given call of `wait` it holds if and only if nothing is on its way to an actor any
  more or all workers have exited (`GroupEnd.EndsLastIff`).
- A Group gives each actor its messages in queue order in all runs if and only if it has at most one worker
  (`GroupLimits.FifoIff`).
- `shutdown` sends Shutdown to all actors (src/group.rs:181): the message can still be on its way when the
  last worker exits, and then it is never handled (`GroupLimits.ShutdownLost`,
  `GroupConservation.AllHandledIffFlushed`).
- Managed actors do not stop on Shutdown: only `stop` ends their loop (`ActorTheorems.NeverExits`), and the
  Manager never calls it, so `Manager::wait` returns only if no actor was spawned
  (`ActorTheorems.WaitReturnsIff`).
- "The callback will still fire" (examples/timer_example.rs:117-118): the timer that
  `on_start_countdown` drops is cancelled and joined at once (`TimerActorModel.CountdownsAreDropped`).
- A type whose name is registered for another type later cannot be sent any more
  (`Codec.SharedNameBreaks`), until it is registered again; `Codec.EncodesIff` says exactly when a type
  can be sent.
- Relays that lead in a circle keep a message on its way for ever (`RoutingRuns.CycleNeverEnds`).

## Model

| member | source | states |
|---|---|---|
| GroupInvariants.StepKeepsInv | src/group.rs:100-288 | every atomic action of every thread keeps the pool's invariant: queue and pipes first in first out, locks and guard held by whoever is inside, actors serial, items accounted for |
| GroupTheorems.HandleIsFifo | src/group.rs:268-288 | in every run, what a handle's forwarder has pushed is a prefix of what was sent through the handle and its clones; only what the wrapper and the forwarder hold is missing |
| GroupTheorems.ExactlyOnce | src/group.rs:219-265 | each envelope that entered the shared queue is in exactly one place: queued, in one worker's hands, or dispatched once |
| GroupTheorems.NothingInvented | src/group.rs:257-288 | whatever is dispatched was sent through a handle to that destination |
| GroupConservation.Conservation | src/group.rs:219-288 | per handle the multiset of envelopes sent equals wrapper + forwarder's hand + queue + workers' hands + dispatched, in every reachable state; the dispatched ones are those that the destination's actor has handled if it was added before start(), and dropped ones otherwise |
| GroupConservation.HandledOrDropped | src/group.rs:257-265 | what was dispatched through a handle is, as a multiset, what its destination's actor handled, and no other actor handled any of it |
| GroupConservation.BagOfPermutation | src/group.rs:268-288 | the multiset of a handle's envelopes does not depend on the order in which items are dispatched |
| GroupConservation.AllHandledIffFlushed | src/group.rs:180-204 | when the last worker leaves, an actor has handled all that was sent through a handle if and only if the handle's forwarder had passed on everything |
| GroupTheorems.BoundedOvertaking | src/group.rs:224-253 | the k-th dispatched envelope has fewer than k + workers before it in the queue; pulled ones form a prefix of the queue order and at most as many as there are workers are undispatched |
| GroupConservation.PermutedPrefix | src/group.rs:224-265 | an actor's handled envelopes, with those for it in workers' hands, are a permutation of the pulled prefix for it; at most one per worker is missing |
| GroupTheorems.SettledIsPrefix | src/group.rs:167-176 | with at most one worker the dispatched envelopes are a prefix of the queue order |
| GroupTheorems.OneWorkerIsFifo | src/group.rs:167-176 | with at most one worker each actor handles its envelopes in queue order |
| GroupLimits.Overtaking | src/group.rs:224-265 | with two workers or more there is a run in which an actor handles its second envelope and not its first |
| GroupLimits.FifoIff | src/group.rs:167-176 | per-actor queue order holds in all runs if and only if the pool has at most one worker, for any actors |
| GroupTheorems.DrainOrder | src/group.rs:226-231 | draining workers dispatch in queue order, and at most one of them holds an item at a time |
| GroupTheorems.MutualExclusion | src/group.rs:191-196 | no two threads are inside one actor, the owner inside end() included |
| GroupTheorems.Serializable | src/group.rs:44-52 | each actor's state is the fold of its own log, init first, as on a thread of its own; the log handles exactly what was dispatched to it, in that order |
| GroupTheorems.Progress | src/group.rs:219-265 | while a worker has not exited, a worker can step or an end() call can return |
| GroupTheorems.ChainsAreShort | src/group.rs:226-265 | the locks never deadlock: whoever waits for one, each worker and the owner in wait(), waits through at most two holders for a thread whose step is enabled |
| GroupLive.WorkersKeepPolling | src/group.rs:224-253 | in every run whose running flag is up, no worker has exited or drains: an empty queue sends it round the loop again |
| GroupLive.CanBeHandled | src/group.rs:219-288 | wherever the k-th envelope sent to an actor through a handle is, as long as a worker is left forwarders and workers can go on to where the actor has handled just that one |
| GroupLive.HandledWhileRunning | src/group.rs:224-253 | in particular for each envelope sent to an actor of a running group with workers |
| GroupSends.SendsAreTheirs | src/group.rs:44-52 | in every run what was sent through a handle is in order what clients, the owner and handlers sent through it; what an actor's handlers sent, with what the one inside it has still to send, is in order what its log makes it send when it is replayed |
| GroupSends.OwnerNotifies | src/group.rs:161-164 | under any interleaving the loops of start() and shutdown() send their message to each reference once, in order, and to nobody else |
| GroupMembers.LatestIsStarted | src/group.rs:120-160 | start() makes members of exactly the names added before it, each with the actor of the last add() for the name |
| GroupMembers.RefsAreDistinct | src/group.rs:120-133 | the references that add() returned are handles of the group, all different, in the order of the calls |
| GroupMembers.LateAddsLeadNowhere | src/group.rs:136-160 | the members never change after start(), so a reference that add() returns later leads to no actor |
| GroupShutdown.StepRemaining | src/group.rs:224-253 | after shutdown every step of a forwarder or worker shrinks the remaining work, and a send adds at most six to it |
| GroupShutdown.DrainBound | src/group.rs:224-253 | so any schedule has at most (work present + 6 per send) such steps |
| GroupShutdown.DrainEnds | src/group.rs:180-204 | from any reachable state after shutdown: that bound, and where no worker can step all have exited |
| GroupShutdown.LastExit | src/group.rs:226-231 | at the exit of the last worker the shared queue is empty and everything that ever entered it has been dispatched |
| GroupShutdown.Frozen | src/group.rs:226-231 | afterwards nothing is dispatched, whatever still arrives |
| GroupShutdown.DispatchedIffInTime | src/group.rs:226-231 | an envelope that enters the queue is dispatched if and only if it was there when the last worker looked; a later one stays queued for ever, with the reply channel of a fast_send if it has one |
| GroupWait.WaitReturns | src/group.rs:191-204 | however the other threads go on, wait() returns only when all workers have exited, and each actor has then got exactly one end() more |
| GroupLimits.HandledAfterEnd | src/group.rs:191-204 | a run in which an actor handles a message after its end() |
| GroupLimits.EndIsLastIff | src/group.rs:191-204 | end() is every actor's last call in all runs whatsoever if and only if there are no workers |
| GroupEnd.CalmRun | src/group.rs:191-204 | with nothing on its way to an actor, or no worker left, no continuation by forwarders, workers and wait() calls an actor again after its end() |
| GroupEnd.CanHandleLater | src/group.rs:191-204 | with an envelope for an actor in a wrapper, a hand, the queue, a worker or a handler's sends to come, and a worker left, there is a continuation in which the actor handles a message after its end() |
| GroupEnd.EndsLastIff | src/group.rs:191-204 | so for wait() called in any reachable state, end() is each actor's last call in every schedule if and only if nothing is on its way to an actor or all workers have exited |
| GroupLimits.ShutdownLost | src/group.rs:180-204 | shutdown() and wait() can both return while the Shutdown message has not reached the queue |
| GroupPool.Group.constructor | src/group.rs:102-115 | a new Group is in the first state of a run of the model; every public method below extends that run |
| GroupPool.Group.Safe | src/group.rs:44-52 | so what holds of all runs holds of the object: mutual exclusion, no envelope handled that was not sent, states that replay the actors' logs |
| GroupPool.Group.Add | src/group.rs:120-133 | a new wrapper and forwarder, recorded for shutdown, and the latest actor for the name |
| GroupPool.Group.GetRef | src/group.rs:136-142 | a new handle if and only if the name was added, before or after start() |
| GroupPool.Group.Send | src/actor.rs:82-85 | a send is appended to what was sent through its handle, and reaches neither the queue nor an actor yet |
| GroupPool.Group.Forward | src/group.rs:275-285 | the forwarder's loop ends with an empty channel, and by then all that was ever sent through the handle has entered the shared queue, in order |
| GroupPool.Group.Turn | src/group.rs:224-265 | one atomic action of a worker keeps the run |
| GroupPool.Group.TryRecv | src/group.rs:228-253 | one try_recv: the head of the queue, with the guard kept in drain mode only; on an empty queue a worker in normal mode goes round the loop again and a draining one exits |
| GroupPool.Group.DispatchToActor | src/group.rs:257-265 | the actor is locked and its handler called on the state found there, to make the sends that the user's code makes of it, or the envelope is dropped if there is no actor |
| GroupPool.Group.RunHandler | src/group.rs:44-52 | the handler's next send, or its return with the new state stored and the lock given back |
| GroupPool.Group.FinishHandler | src/group.rs:44-52 | a handler run to its end sends the rest of its sends to the handles they are addressed to, in order, stores its new state and gives back just its lock |
| GroupPool.Group.DrainOne | src/group.rs:228-230 | one turn of the drain loop dispatches exactly the head of the queue: its actor gets the state that its handler makes of it, and each handle what the handler sends to it |
| GroupPool.Group.Drain | src/group.rs:226-231 | an undisturbed drain dispatches the whole queue in order and exits, whatever the handlers send |
| GroupPool.Group.Start | src/group.rs:150-177 | the loops of start() are the model's steps: init of every actor, one Start through each reference that add() returned and none elsewhere, then the workers |
| GroupPool.Group.InitAll | src/group.rs:155-159 | every added actor gets init() once |
| GroupPool.Group.Shutdown | src/group.rs:180-188 | one Shutdown through each reference that add() returned and none elsewhere, then the flag comes down |
| GroupPool.Group.NotifyAll | src/group.rs:162-164 | the loop over the references appends the message to what was sent through each, once, and changes no other handle |
| GroupPool.Group.EndAll | src/group.rs:191-196 | the loop over the actors waits for each one's lock and calls end() exactly once on each |
| GroupPool.Group.JoinAll | src/group.rs:198-204 | once the flag is down the workers all exit, with no call of end(), and leave an empty queue |
| GroupPool.Group.Wait | src/group.rs:191-204 | wait() after shutdown() returns, with exactly one more end() on every actor, all workers gone and the shared queue empty |
| ActorInvariants.StepKeepsInv | src/actor.rs:82-97 | every atomic action keeps: tokens linear and addressed, outcomes are first replies, mailboxes first in first out, start order |
| ActorTheorems.MailboxIsFifo | src/actor.rs:426-453 | an actor's turns are a prefix of the arrivals in its mailbox, and the mailbox is the rest |
| ActorSends.ArrivalsAreTheirs | src/actor.rs:82-97 | in every run what arrives at an actor is in order what was mailed to it while its channel was open: init()'s Start, outside messages, handlers' sends, calls with a token of their own, and replies to the sender of the message being handled, with the replying actor as sender |
| ActorSends.ContextIsOfTurn | src/actor.rs:271-296 | while a handler runs, the context names the sender of its message, and holds its reply channel until the first reply |
| ActorTheorems.StartCausality | src/manager.rs:242-256 | whatever is ahead of init()'s Start came from outside or from an actor managed earlier |
| ActorTheorems.StartBeforeOwnMessages | src/manager.rs:242-256 | Start is ahead of anything the actor itself or a later one sends to it |
| ActorTheorems.TokenInOnePlace | src/actor.rs:88-97 | each reply channel is in exactly one of: a mailbox, a context, an outcome; and only with the actor that was called |
| ActorTheorems.AnswerIsFirstReply | src/actor.rs:271-280 | a caller gets Some(m) if and only if m is the first reply in the one turn that handles its own envelope |
| ActorTheorems.NoCrossing | src/actor.rs:88-97 | a blocked caller waits for its own call, and each answer was given in a turn of the actor called |
| ActorTheorems.UnansweredWaits | src/actor.rs:293-296 | a call left without a reply stays open and its caller blocked through any run up to the callee's next receive or exit, and that ends it without an answer |
| ActorTheorems.UnansweredHangsUp | src/actor.rs:293-296 | and that step ends it without an answer |
| ActorTheorems.NeverExits | src/actor.rs:426-441 | without stop() every actor keeps running for ever, Shutdown message or not |
| ActorTheorems.WaitReturnsIff | src/manager.rs:277-288 | so wait(), and end() with it, can return if and only if no actor was spawned |
| ActorTheorems.StopIsLate | src/actor.rs:456-458 | after stop() an actor handles at most the one message it is already waiting for |
| ActorProgress.KnotForever | src/actor.rs:88-97 | actors blocked on tokens that blocked actors of the same set hold stay so for ever |
| ActorProgress.KnotHangs | src/actor.rs:88-97 | so none of their calls returns |
| ActorProgress.SelfCallHangs | src/actor.rs:88-97 | a fast_send to oneself never returns |
| ActorProgress.MutualCallHangs | src/actor.rs:88-97 | nor do two that call each other |
| ActorProgress.StuckIsKnot | src/actor.rs:426-453 | if handlers always reply, a knot is the only way to get stuck |
| ActorProgress.RankedHasNoKnot | src/actor.rs:88-97 | calls to lower ranks only leave no room for a knot |
| ActorProgress.CallsMakeProgress | src/actor.rs:88-97 | so with both, some thread can step whenever a message or a caller waits, for any number of actors |
| ActorThread.Channel.Send | src/actor.rs:82-85 | send appends to the mailbox and fails just when the channel is closed |
| ActorThread.ActorRuntime.Test | src/actor.rs:429-441 | the loop goes on by the flag, and its end hangs up every call still held |
| ActorThread.ActorRuntime.Receive | src/actor.rs:445-450 | taking an envelope overwrites the context and drops the channel it held |
| ActorThread.ActorRuntime.Reply | src/actor.rs:271-280 | a reply takes the reply channel if there is one, else the sender's mailbox has it afterwards, with this actor's number and name as its sender, and no other mailbox changes |
| ActorThread.ActorRuntime.Process | src/actor.rs:445-453 | of a handler's replies a caller gets the first, and the sender's mailbox all others in order |
| ActorThread.ActorRuntime.Run | src/actor.rs:426-441 | an undisturbed run handles the mailbox in order, each message on the state the one before has left; the calls answered, the calls hung up and every mailbox are exactly what the turns give |
| ActorThread.AnswersIff | src/actor.rs:271-280 | in such a run a call is answered, with the first reply, if and only if the handler replies to it, and hung up otherwise; calls do not disturb each other |
| ActorThread.Exchange | src/actor.rs:271-280 | a reply can be answered: what the other actor replies to it arrives in the inbox of the one that made it, in order and with that other actor as sender, behind its replies to earlier messages |
| ManagerRuntime.Manager.Manage | src/manager.rs:190-205 | one new actor and reference; the name leads to the latest actor |
| ManagerRuntime.Manager.GetRef | src/manager.rs:211-219 | finds the last actor managed under the name, and one if and only if there is any |
| ManagerRuntime.Manager.Init | src/manager.rs:242-256 | each unstarted actor gets exactly one Start and then its thread, in the order of manage(), as the model's steps |
| ManagerRuntime.Manager.Shutdown | src/manager.rs:270-274 | each actor's mailbox gets one Shutdown and nothing else changes |
| Codec.NameOfLast | src/serialization.rs:68-72 | a type goes by the name of its last registration |
| Codec.EntryOfLast | src/serialization.rs:74-92 | a name stands for the last type registered under it |
| Codec.NamesHaveEntries | src/serialization.rs:63-93 | every name that a type goes by is a key of the codec map, after any history |
| Codec.OwnIds | src/serialization.rs:68-72 | two messages have one id if and only if they are of one type |
| Codec.OneMoreRegistration | src/serialization.rs:63-119 | registering a type under a name gives its messages that name, keeps messages of the type that had the name from being sent, and changes neither the name of any other message nor how it is sent |
| Codec.EncodesIff | src/serialization.rs:112-119 | a message can be sent if and only if its type was the last one registered under its current name |
| Codec.EncodeDecode | src/serialization.rs:136-150 | what is sent is what a process with equal tables reads, with type and value |
| Codec.UnsharedNamesEncode | src/serialization.rs:63-93 | if no name is given to two types, every registered type can be sent |
| Codec.SharedNameBreaks | src/serialization.rs:63-93 | in any history a type whose name has gone to another type since cannot be sent until it is registered again |
| MessageRegistry.Registry.Register | src/serialization.rs:63-93 | the two tables in place stay those of the registration history |
| MessageRegistry.Registry.GetTypeName | src/serialization.rs:98-106 | finds the name of the last registration of the type, if any |
| MessageRegistry.Registry.Serialize | src/serialization.rs:112-119 | works if and only if the type was the last one registered under the name |
| MessageRegistry.Registry.TryDeserialize | src/serialization.rs:136-150 | decodes as the last type under the name, panics on a malformed payload, and reports an unknown name with the code's text |
| Routing.RelayKeepsPairIff | src/remote.rs:385-398 | a relay keeps the sender fields if and only if they come as a pair or not at all |
| Routing.SentIsCarried | src/remote.rs:167-201 | whoever knows the type name that a process sends reads the message that was sent |
| Routing.RelayKeepsMessage | src/remote.rs:385-398 | a relay passes on the message that it read, for whoever knows its type |
| Routing.FollowKeepsPair | src/remote.rs:178-200 | along a chain of relays of any length the sender fields are preserved |
| Routing.FollowNoPair | src/remote.rs:178-184 | sender fields that are no pair, such as those of a C++ sender, never become one on the way |
| Routing.FollowKeepsMessage | src/remote.rs:364-398 | and so is the message, whatever types the processes on the way know besides |
| Routing.HopDescends | src/remote.rs:385-398 | without a cycle of relays, every relay shortens the chain that is left |
| Routing.OrderedIsAcyclic | src/remote.rs:231-252 | relays that lead downwards in some order of the registered actors form no cycle |
| Routing.RelayTransparency | src/remote.rs:167-201 | whoever gets a relayed message gets the message that was sent, from the sender that sent it; from a C++ sender it arrives without one, and is never rejected |
| Routing.ReplyComesBack | src/remote.rs:364-398 | a relayed question's reply goes straight to the original process and is delivered to the actor of that name, if and only if that process knows the reply's type |
| Routing.AnswerArrives | src/remote.rs:364-398 | a reply is delivered, with who made it, if and only if its type name is known at home |
| Routing.RejectComesBack | src/remote.rs:368-406 | a Reject is sent just when the actor or the type is unknown where the message is and both sender fields are there; the original sender's actor gets it, with what was refused, why and by whom, and without a sender, if and only if its process knows Reject's name |
| RejectExample.UnknownTypeIsRejected | examples/reject_example/receiver.rs:39-45 | the message that the receiver's process has not registered is refused for its type, and the sender's actor gets the Reject that says so |
| RejectExample.UnknownActorIsRejected | src/remote.rs:368-381 | a message to a name that nobody has at the receiver comes back to the sender's actor as a Reject with the code's text |
| RoutingRuns.UnsharedIsHealthy | src/serialization.rs:63-93 | if every process registers Reject, and no name is given to two types anywhere, no process panics; which types each one registers is free |
| RoutingRuns.NoCrash | src/remote.rs:355-408 | then no well-formed message makes a process panic, and what it sends on is well formed again |
| RoutingRuns.NoPairNoReject | src/remote.rs:372-380 | a message without sender fields, such as a Reject, never causes a Reject |
| RoutingRuns.EndsShape | src/remote.rs:355-408 | each message ends once, as delivered, rejected or dropped, and one Reject follows a rejection |
| RoutingRuns.FateIff | src/remote.rs:355-408 | which of the three can be read off the place where its relays lead |
| RoutingRuns.Accounting | src/remote.rs:355-408 | for any set of messages and any schedule, log and future ends together are invariant, and the schedule is bounded |
| RoutingRuns.AllSchedulesAgree | src/remote.rs:355-408 | so all schedules end, and end alike; Rejects are as many as rejected messages |
| RoutingRuns.CycleNeverEnds | src/remote.rs:385-398 | a message that comes into a cycle of relays, of any length, stays on its way for ever |
| RoutingRuns.EndsIff | src/remote.rs:355-408 | every finite set of well-formed messages is dealt with in a bounded number of steps, whatever the schedule, if and only if no chain of relays comes back to the same actor name and type name |
| SocketCache.OneMore | src/remote.rs:119-137 | how one more request changes the first successful connect, the data since then and the connects tried |
| SocketCache.Send | src/remote.rs:119-137 | one request touches the socket and the connects of its own endpoint only |
| SocketCache.SenderLoop | src/remote.rs:116-137 | for every endpoint the socket gets exactly its requests from the first successful connect on, in order, with one connect per request until then and none after |
| TimerModel.ExecKeepsInv | src/timer.rs:51-111 | the timer's invariant holds in every interleaving of thread, cancel and drop |
| TimerModel.OnceSendsOnce | src/timer.rs:51-66 | a one-shot timer sends at most one Timeout, as its last action |
| TimerModel.SendsAfterCancelIff | src/timer.rs:91-96 | after cancel one more Timeout is sent if and only if the thread was past its test of the flag |
| TimerModel.TimeoutAfterCancel | src/timer.rs:91-96 | a run in which that happens, for both kinds |
| TimerModel.SilentAfterDrop | src/timer.rs:104-111 | when drop has returned the thread is at its end |
| TimerModel.IdsAreUnique | src/timer.rs:114-119 | timer ids are unique until the 64-bit counter has gone round |
| TimerModel.CancelledThreadEnds | src/timer.rs:76-83 | a cancelled thread ends by itself after at most three more steps |
| TimerModel.DropReturns | src/timer.rs:104-111 | a drop that has begun is never stuck: the thread can step or join() returns |
| TimerThread.Timer.ThreadTurn | src/timer.rs:55-60 | one turn of the thread sends a Timeout just when it is past its test |
| TimerThread.Timer.Cancel | src/timer.rs:94-96 | the flag comes down and the thread stays where it is |
| TimerThread.Timer.Drop | src/timer.rs:104-111 | drop ends, and the thread sends one Timeout until then if it was past its test, else none |
| TimerActorModel.StepKeepsInv | examples/timer_example.rs:53-119 | every step of actor, timers and senders keeps the composed invariant |
| TimerActorModel.TerminatesIff | examples/timer_example.rs:73-106 | terminate has been called if and only if both fields are None again, if and only if ten ticks and the countdown have been handled |
| TimerActorModel.NoTimeoutLost | examples/timer_example.rs:73-106 | every Timeout of the two timers is handled once or waits; the countdown is sent at most once |
| TimerActorModel.Progress | examples/timer_example.rs:73-106 | until terminate is called the actor is never stuck, drops included |
| TimerActorModel.CountdownsAreDropped | examples/timer_example.rs:108-119 | between handlers every timer of on_start_countdown is dropped and its thread at its end |
| TimerActorThread.TimerActor.Join | src/timer.rs:104-111 | the wait in join() ends, with one Timeout more if the thread was past its test and none otherwise |
| TimerActorThread.TimerActor.HandleOne | examples/timer_example.rs:53-119 | a whole handler with the drop in it: what it counts, and terminate() called afterwards if and only if both fields are None, if and only if ten ticks and the countdown are done |
| TimerActorThread.TimerActor.Play | examples/timer_example.rs:122-142 | the whole run comes to an end, with terminate() called after ten ticks and the countdown |
| PingPong.StepMovesToken | examples/ping_pong.rs:54-87 | every step keeps exactly one token, and lowers its potential just when it moves it |
| PingPong.WholeRun | examples/ping_pong.rs:54-87 | one token in every reachable state; pings carry 1, 2, 3, ...; terminate is called once, after max(1, max_count) round trips |
| PingPong.TokenCanMove | examples/ping_pong.rs:54-87 | until then a thread can move the token |
| PingPongRun.Match.PingActor | examples/ping_pong.rs:54-76 | the handlers of PingActor, first match first |
| PingPongRun.Match.PongActor | examples/ping_pong.rs:83-92 | the handler of PongActor replies to the sender of the envelope |
| PingPongRun.Match.Play | examples/ping_pong.rs:94-113 | under any choice of who runs next the game ends, with one terminate and pings 1 to max(1, max_count) |

## Left out

- ZMQ, TCP, tokio and their timeouts: a link is a queue that loses what is sent before the first successful connect. Socket send errors, which the code ignores, are not modelled.
- serde and JSON text: a wire envelope is a record of optional fields, and each message type's codec is an assumed inverse pair (`Faithful`).
- Panics and mutex poisoning: `Healthy` and `WellFormed` state what keeps a process from panicking. `Crash` and `Panic` mark the places where the code would.
- Replacing `tcp://*:` in endpoints, CPU affinity, thread priority, sleeping, real time, printing, the `main` functions and the macros.
- C++ actors: their lookup and send functions are not part of this model, beyond the fact that a Cpp sender has no endpoint.
- Handlers of a Group that call `fast_send`: pool handlers only send. A `fast_send` into a Group is an envelope with a reply channel, which the pool moves like any other; what becomes of the channel in the member's context (src/group.rs:261-264) is that of `ActorModel`.
- GroupTheorems.Progress: with handlers that call fast_send inside a Group it would need the ranks of `ActorProgress`.
- A second `Group::start`, and a Group that is dropped without `wait`.
- The `Disconnected` arm of `worker_loop`: the Group keeps its own Sender, so it is not reached.
- Locking the receiver, try_recv and unlocking it are one step in normal mode, since nothing else happens in between.
- Actor `init` and `end` on a managed thread, which send nothing through a context. `ManagerHandle` and `Manager::run`, a shared flag that is set and polled; the examples' machines have it as `terminated`.
- ManagerRuntime.Manager.Init: runs without interference from the actors already started; `ActorTheorems.StartCausality` covers every interleaving.
- TimerActorModel.TerminatesIff: Start arrives once, from the Manager, and Timeouts come from the timers; other messages are free. Ids do not wrap there, and the u32 tick counter is unbounded.
- TimerActorThread.TimerActor.HandleOne: the timers of the actor are values in a sequence, not `Timer` objects.
- ActorThread.ActorRuntime.Run: its handlers only reply; other sends and calls of a handler are steps of `ActorModel`. Nobody else sends or stops the actor meanwhile.
- GroupPool.Group.Wait: after `shutdown`; without it the code never returns when there are workers. Forwarders rest while it runs; `GroupWait.WaitReturns` and `GroupShutdown.DrainEnds` cover every schedule.
- GroupEnd.EndsLastIff: clients' sends, new references and a new `shutdown` during `wait` are left out of the continuations.
- PingPong.TokenCanMove: the game is a machine of its own, not an instance of `ActorModel`.
- PingPong.WholeRun: counts are unbounded integers; a count never exceeds max_count, so the code's i32 does not overflow.
- Two threads inside `register_remote_message` at once: its two inserts are taken as one step.
- RoutingRuns.AllSchedulesAgree: a type name stands for one type wherever it is known, and relaying processes can send what they can read (`Healthy`); otherwise a process panics or a message changes its type.
- Accessors, `get_names`, `is_running`, `deserialize_message` and `is_message_registered`.
