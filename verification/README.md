# Supervision, mailboxes and connections of meio: a verified model

meio is an actor framework for Rust. Actors and lightweight tasks form a supervision tree; a parent
terminates its children group by group, and every child reports its end to the parent. `meio-connect`
builds an HTTP server and WebSocket endpoints on top of it. This project models the parts whose
correctness is a matter of whole runs, and proves what they are for:

| file | what it models |
|---|---|
| `options.dfy` | an optional value |
| `lifecycle.dfy` | `LifetimeTracker` as an object, proved against a closed form of the termination walk |
| `termination.dfy` | what holds over every run of a tracker: one staged interrupt each, order of groups |
| `context.dfy` | the context of an actor, when it stops, and its refinement of a plain set of children |
| `mailbox.dfy` | the three queues of an actor with their history: conservation, order, deadlines |
| `actor_runtime.dfy` | `ActorRuntime` and the sending side of an address, as an object |
| `supervision.dfy` | the whole tree as a transition system, with its inductive invariant |
| `tree.dfy` | the theorems about the tree: accounting, post-order termination, interrupts that get through |
| `lives.dfy` | every node of the tree lives the life of one context and one mailbox |
| `attempts.dfy` | the interrupts that a tracker counts are those that its children hear |
| `witnesses.dfy` | runs which show that the conditions of those theorems are needed |
| `lite_runtime.dfy` | stop signals, joiners, and how a task ends |
| `handlers.dfy` | interactions |
| `forwarders.dfy` | attached streams |
| `talker.dfy` | the WebSocket talker |
| `client.dfy` | the reconnecting WebSocket client |
| `bind.dfy` | waiting for the address of the HTTP server |
| `http_listener.dfy` | the listener task of the HTTP server and its restart |

How the pieces fit:

- A class (`LifetimeTracker`, `Context`, `ActorRuntime`, `Talker`, `HttpServer`, `WsClient`) has the fields
  of the Rust type, and each method is proved to take `View()`, the object as a value, to a function of its
  old value. The theorems are about those values, over all runs.
- The order in which `stage_sequence` lists the groups that are not prioritised comes from a hash map. It
  is a value `order`, chosen afresh by every call; `ValidOrder` says which orders are possible, and every
  theorem holds for all of them.
- In the tree a user handler is an arbitrary finite sequence of context calls, interleaved with the steps
  of all other nodes. `spawn` and `insert` are two steps, so a child may run, and even finish, before its
  parent has recorded it; and the address of a new actor may already have received messages.
- `SupervisionLives.StepMoves` proves that a step changes the context of a node by the event that the step
  names, if any, which is possible, and its mailbox by at most one legal act. `NodeLives` and
  `MailIsConservedEverywhere` carry this over to whole runs, so what is proved of the lives of contexts and
  mailboxes holds of every node of the tree; `EveryNodeIsPlain` and `NodeStopsAtLastDone` spell out the
  stop decision.
- The HTTP server has its own steps; `ServerLives` proves that its context lives the life of a context and
  that its mailbox keeps what every mailbox keeps, and `HttpServer.Turn` that a turn of the runtime with its
  handlers is such a step.
- The client runs the talker of `talker.dfy` on every connection: which senders are live is read off the
  channels that the talkers leave behind.
- One poll of `select_biased!` is one step. What happens outside (arrivals, the clock, the behaviour of
  handlers, sockets and peers) is an argument, universally quantified in the theorems.
- "Finished" means that a node has left its routine and sent its Done (`Over`).

Where the code does less than its documentation or a first reading suggests:

- Termination keeps two groups apart if and only if one of them is prioritised: otherwise some run has
  both terminating while both hold a child, because the second walk may see another hash order
  (`Termination.OrderIsPromisedExactly`).
- A finished actor may have unfinished children. `OrphansAreMadeExactly` says when: it finishes with a child
  on record whose Done is not in its queue, and no other step makes an orphan. A direct `stop` or a
  failing Awake with a child on record, and a spawn after the actor has stopped, lead there
  (`UndisciplinedOrphans`, `LateSpawnOrphans`); a `stop` with no child on record does not.
- An actor may wait for children none of which has accepted an interrupt: this happens if and only if every
  child in a terminating stage is a task that dropped its `StopReceiver` before any interrupt and still
  runs (`NeverStuck`, with the run `EarlyTaskIsNotTold`). A task gets its `StopReceiver` by value and may drop
  it long before it ends.
- The join of a node may return before the join of a descendant: `JoinOvertakesExactly` says when, which is
  exactly if the descendant is between its Done and the release of its own joiners (`JoinOvertakesChild` is a
  run where that is so).
- Interrupted does not mean that Stop was sent: the stop future is also ready once the last stop sender is
  dropped, and the talker, the pause of the client and the default routine of a task end as interrupted
  then (`InterruptedMeansOver`, with the run `InterruptedWithoutStop`). The loop head of the client reads
  only the value of the stop channel, so it goes on without senders (`TurnEnds`).

## Model

| member | source | states |
|---|---|---|
| Lifecycle.LifetimeTracker.constructor | meio/src/lifecycle.rs:46-54 | a new tracker has no stage, no record, and has interrupted nobody |
| Lifecycle.LifetimeTracker.TerminationSequence | meio/src/lifecycle.rs:119-121 | replaces the list of prioritised groups and nothing else |
| Lifecycle.LifetimeTracker.Insert | meio/src/lifecycle.rs:60-105 | records the child in its group, and interrupts it at once exactly if the stage of the group is already terminating |
| Lifecycle.LifetimeTracker.Remove | meio/src/lifecycle.rs:107-116 | forgets the child, tolerates an unknown id, and continues the termination if one is on |
| Lifecycle.LifetimeTracker.IsFinished | meio/src/lifecycle.rs:123-125 | true if and only if every stage is terminating and empty |
| Lifecycle.LifetimeTracker.StageSequence | meio/src/lifecycle.rs:127-134 | the prioritised groups, then each other group that has a stage exactly once, in some order |
| Lifecycle.LifetimeTracker.TerminateGroup | meio/src/lifecycle.rs:136-151 | one interrupt attempt for every recorded child of the group; no flag changes |
| Lifecycle.LifetimeTracker.InterruptAll | meio/src/lifecycle.rs:159-169 | each recorded child of the set is notified exactly once, whatever the iteration order |
| Lifecycle.LifetimeTracker.TryTerminateNext | meio/src/lifecycle.rs:153-176 | for some possible order, the walk has its closed form |
| Lifecycle.LifetimeTracker.Walk | meio/src/lifecycle.rs:154-175 | the loop with its break: afterwards the groups up to the first occupied one are terminating, and only the children of that one are interrupted, if its termination starts now |
| Lifecycle.WalkIsAdvance | meio/src/lifecycle.rs:155-175 | the turn-by-turn walk equals its closed form, for every order and every state |
| Lifecycle.Frontier | meio/src/lifecycle.rs:171-173 | the walk ends at the first group that still holds a child |
| Termination.InterruptedExactlyOnce | meio/src/lifecycle.rs:61-116 | over every run: each tracked child lies in exactly the stage its record names, has had one staged interrupt if that stage is terminating and none otherwise, no id ever gets two, and a terminating stage means a terminating tracker |
| Termination.StepKeepsInv | meio/src/lifecycle.rs:61-176 | each call keeps that, for fresh ids and every hash order |
| Termination.TerminateGroupExactly | meio/src/lifecycle.rs:136-151 | a group termination tries each tracked child of that group once, no other child, and changes nothing else |
| Termination.InsertExactly | meio/src/lifecycle.rs:61-105 | an insert records the child under its group and notifier, puts it into that stage only, and tries to interrupt it exactly if the stage is terminating |
| Termination.FlagsNeverFallBack | meio/src/lifecycle.rs:153-176 | flags are never cleared, stages never vanish, attempts are never taken back, between any two moments of a run |
| Termination.AdvanceDecides | meio/src/lifecycle.rs:153-180 | after a walk everything is finished if and only if no child is tracked, and otherwise some tracked child is in a terminating stage |
| Termination.AdvanceInterruptsNewcomers | meio/src/lifecycle.rs:157-168 | a child whose stage starts to terminate in a walk is interrupted by that walk |
| Termination.GroupsStartInOrder | meio/src/lifecycle.rs:127-176 | whenever a call starts the termination of a group, every group ahead of it that has a stage is terminating and empty |
| Termination.EarlierGroupsGoFirst | meio/src/lifecycle.rs:127-176 | with no insert during termination: when a child of a later group gets its staged interrupt, no child of an earlier group is tracked, then or ever after |
| Termination.StaysStaged | meio/src/lifecycle.rs:153-176 | in such runs no group ahead of a terminating one ever holds a child |
| Termination.InterruptMarksStage | meio/src/lifecycle.rs:157-168 | a staged interrupt goes only to a child whose stage is terminating afterwards |
| Termination.UnprioritisedGroupsMayOverlap | meio/src/lifecycle.rs:127-134 | for every priority list and every two groups outside of it, an orderly run ends with both terminating and both holding a child |
| Termination.OrderIsPromisedExactly | meio/src/lifecycle.rs:127-176 | two groups can overlap in an orderly run if and only if neither is prioritised |
| ActorContext.Context.constructor | meio/src/actor_runtime.rs:138-143 | a new context is alive and tracks nobody |
| ActorContext.Context.Stop | meio/src/actor_runtime.rs:251-253 | clears the alive flag and starts no termination |
| ActorContext.Context.Shutdown | meio/src/actor_runtime.rs:256-261 | takes one step of the termination and stops if nothing is left |
| ActorContext.Context.ChildDone | meio/src/actor_runtime.rs:361-368 | removes the child, and stops if nothing is left |
| ActorContext.ShutdownDecides | meio/src/actor_runtime.rs:256-261 | `shutdown` stops the actor if and only if no child is on record, and leaves it waiting for an interrupted child otherwise |
| ActorContext.DoneDecides | meio/src/actor_runtime.rs:361-368 | a Done stops the actor if and only if it is terminating and no record is left (or no stage ever existed) |
| ActorContext.StepKeepsWaiting | meio/src/actor_runtime.rs:251-269 | an actor that is alive and terminating has a child in a terminating stage, whatever it spawns or calls |
| ActorContext.StepRefinesPlain | meio/src/lifecycle.rs:107-176 | each event moves the plain set of live children as it moves the staged tracker |
| ActorContext.StagesRefinePlainSet | meio/src/lifecycle.rs:107-180 | over every life and for every hash order, the stop decisions of the staged tracker are those of a plain set with a terminating flag |
| ActorContext.RecordsCountDones | meio/src/lifecycle.rs:107-116 | during a graceful termination the records are the initial ones less one per Done |
| ActorContext.StopsAtLastDone | meio/src/actor_runtime.rs:256-261 | after `shutdown` with n children, no spawn and no `stop`, the actor is alive if and only if fewer than n Dones came |
| ActorContext.GracefulStepsDescend | meio/src/lifecycle.rs:153-176 | every step of it descends, or stays, in the lexicographic order of records and stages not terminating |
| Mailboxes.StepKeepsConserved | meio/src/actor_runtime.rs:352-431 | each send, poll and the final drop keep every message in exactly one place and each queue in send order |
| Mailboxes.StepKeepsPunctual | meio/src/actor_runtime.rs:352-431 | nothing scheduled is handled early; a normal message is handled only if every urgent parcel accepted before was handled and nothing was due |
| Mailboxes.EveryMessageAccountedFor | meio/src/actor_runtime.rs:337-439 | both, over every run from an empty mailbox |
| Mailboxes.PolledMeansLogged | meio/src/actor_runtime.rs:352-431 | a poll hands out a call exactly if one handler call is logged, with that envelope, and a Done exactly for the Done parcel in front |
| Mailboxes.InstantBeforeNormal | meio/src/actor_runtime.rs:352-431 | in every run a parcel for immediate handling has been handled before any normal message that is polled after it was accepted |
| ActorRuntimes.ActorRuntime.constructor | meio/src/actor_runtime.rs:138-151 | a new runtime has empty open queues and sent no signal |
| ActorRuntimes.ActorRuntime.HighPrioritySend | meio/src/linkage/address.rs:161-165 | appends the parcel if and only if the receiver is alive, and reports which |
| ActorRuntimes.ActorRuntime.NormalPrioritySend | meio/src/linkage/address.rs:167-172 | appends the envelope if and only if the receiver is alive, and reports which |
| ActorRuntimes.ActorRuntime.Accept | meio/src/linkage/address.rs:122-185 | `act`, `instant`, `schedule`, `unpack_parcel` and `send_event` use the queue and the operation they should |
| ActorRuntimes.ActorRuntime.ServeParcel | meio/src/actor_runtime.rs:353-380 | a parcel is handled, or handled after the bookkeeping of its Done, or put into the delay queue |
| ActorRuntimes.ActorRuntime.ServeQueues | meio/src/actor_runtime.rs:392-430 | otherwise a due item is taken, and only without one a normal message |
| ActorRuntimes.ActorRuntime.Select | meio/src/actor_runtime.rs:352-431 | one `select_biased!` is one poll of the mailbox and, for a Done, one step of the context |
| ActorRuntimes.ActorRuntime.CallContext | meio/src/actor_runtime.rs:170-269 | each context call of a handler is one event of the context |
| ActorRuntimes.ActorRuntime.Routine | meio/src/actor_runtime.rs:337-439 | takes turns for as long as the actor is alive, each of them a turn of the specification |
| ActorRuntimes.ActorRuntime.Entrypoint | meio/src/actor_runtime.rs:296-335 | Awake comes first; a failing Awake skips the routine; then Done, then the release of joiners, in this order and once each, then the end of the receivers |
| ActorRuntimes.TurnKeeps | meio/src/actor_runtime.rs:340-438 | a turn keeps conservation and punctuality, whatever arrives and whatever the handler calls |
| ActorRuntimes.RoutineKeeps | meio/src/actor_runtime.rs:337-439 | so does the whole routine, and the drop of its queues at any point |
| ActorRuntimes.ArrivalExactly | meio/src/linkage/address.rs:122-185 | which queue each way of sending uses, with which operation, on an open and on a closed mailbox |
| ActorRuntimes.CallExactly | meio/src/actor_runtime.rs:170-269 | what each context call does: which record it adds, whether the actor stops, whom a group termination tries |
| ActorRuntimes.TurnServesDone | meio/src/actor_runtime.rs:361-379 | in a turn that hands out a Done the record is gone, and the actor stopped if it was the last of a terminating actor, before the handler begins; no other turn touches the context before its handler |
| Supervision.DoneMeansTracked | meio/src/actor_runtime.rs:361-368 | a dispatched Done names a recorded child that has finished: no Done is dispatched before the insert, although the spawn precedes it |
| Supervision.StepKeepsSysInv | meio/src/actor_runtime.rs:170-335 | every step of every node keeps the invariant of the whole tree |
| Supervision.SysInvHolds | meio/src/lite_runtime.rs:91-119 | it holds in every reachable state |
| SupervisionTree.SupervisionAccounting | meio/src/actor_runtime.rs:170-202 | between handlers the records of an actor are exactly its spawned children whose Done it has not dispatched; a finished one has exactly one Done in its queue, an unfinished one has none |
| SupervisionTree.JoinMeansDoneSent | meio/src/actor_runtime.rs:321-334 | a node whose joiners are released has its Done in the queue of its parent, or it was dispatched |
| SupervisionTree.NeverStuck | meio/src/lifecycle.rs:153-176 | an actor that is alive and terminating has a tracked child in a terminating stage; the interrupt was accepted by one of these, or its Done is in flight, if and only if they are not all running tasks that dropped their StopReceiver before any interrupt |
| SupervisionTree.GotThroughExactly | meio/src/lifecycle.rs:61-104 | the same for each tracked child in a terminating stage by itself |
| SupervisionTree.NeverStuckWhileListening | meio/src/lifecycle.rs:153-176 | if the tracked tasks hold their StopReceivers until they finish, the interrupt got through to some child, whatever the handlers spawn |
| SupervisionTree.EarlyMeansUnheard | meio/src/lite_runtime.rs:147-151 | a task let go before any interrupt was accepted if and only if it holds no receiver and has accepted none |
| SupervisionTree.PostOrderTermination | meio/src/actor_runtime.rs:256-335 | in runs whose finishes are clean a finished actor has only finished descendants, at any depth |
| SupervisionTree.JoinOvertakesExactly | meio/src/actor_runtime.rs:320-334 | when a node releases its joiners in a run with clean finishes, those of a descendant at any depth wait on if and only if it has sent its Done and not released them yet |
| SupervisionTree.CleanRunsExactly | meio/src/actor_runtime.rs:320-329 | no state of a run has an orphan if and only if every actor that finishes has the Done of each recorded child in its queue |
| SupervisionTree.OrphansAreMadeExactly | meio/src/actor_runtime.rs:320-329 | a step makes an orphan if and only if it is the finish of its parent with the child on record and no Done of it in the queue |
| SupervisionTree.DisciplinedRunsAreClean | meio/src/actor_runtime.rs:245-261 | runs that obey the discipline have clean finishes only |
| SupervisionTree.DisciplineIsExact | meio/src/actor_runtime.rs:245-261 | a step keeps stopped actors without children on record if and only if it is no `stop` with a child on record, no spawn of a stopped actor and no failing Awake with a child on record |
| SupervisionTree.QuietRunsExactly | meio/src/actor_runtime.rs:245-261 | the same for whole runs |
| SupervisionTree.StepKeepsQuiet | meio/src/actor_runtime.rs:256-261 | a disciplined step never leaves a stopped actor with a child on record |
| SupervisionLives.StepMoves | meio/src/actor_runtime.rs:294-439 | a step changes the context of each node by the event it names, which is possible, and each mailbox by at most one legal act |
| SupervisionLives.NodeLives | meio/src/actor_runtime.rs:170-439 | in every reachable state the context of every node has lived a life from its birth, with the events that the steps of the run name, and has as many Dones in it as children dispatched |
| SupervisionLives.EveryNodeIsPlain | meio/src/actor_runtime.rs:256-261 | the stop decisions of every node in every run are those of a plain set of children |
| SupervisionLives.NodeStopsAtLastDone | meio/src/actor_runtime.rs:256-261 | in every run, after a shutdown with n children on record, no further record and no `stop`, a node is alive if and only if it has dispatched fewer than n Dones since |
| SupervisionLives.MailIsConservedEverywhere | meio/src/actor_runtime.rs:337-439 | conservation, order and punctuality for every node of every run of the tree |
| SupervisionLives.StepExactly | meio/src/actor_runtime.rs:170-335 | the phases of a node, the extent of its handlers, and what a spawn brings into the world |
| SupervisionLives.InsertedExactly | meio/src/actor_runtime.rs:170-202 | the insert that ends a spawn records the child under the group it was spawned for, with the notifier of its kind |
| SupervisionLives.NewcomerIsKept | meio/src/actor_runtime.rs:170-178 | a new actor begins with what was sent to its address before, in order, and nothing else |
| SupervisionWitnesses.EarlyTaskIsNotTold | meio/src/lite_runtime.rs:303-306 | a disciplined run in which the only child is a task that let go early, so that no interrupt got through |
| SupervisionWitnesses.UndisciplinedOrphans | meio/src/actor_runtime.rs:251-253 | a direct `stop`, or a failing Awake, with a child on record leaves an orphan |
| SupervisionWitnesses.LateSpawnOrphans | meio/src/actor_runtime.rs:170-178 | so does a spawn after the actor has stopped |
| SupervisionWitnesses.JoinOvertakesChild | meio/src/linkage/address.rs:214-222 | a disciplined run in which the root has released its joiners before its child |
| SupervisionAttempts.ChildrenHearWhatIsCounted | meio/src/lifecycle.rs:136-176 | in every reachable state a child has accepted at most the attempts that its parent counts, exactly these as long as its receiver exists, and at most one besides those of `terminate_group` |
| SupervisionAttempts.StepHeard | meio/src/lifecycle.rs:183-220 | each step raises the count of a parent and what its child has accepted by the same interrupt, the latter only if the child still has its receiver |
| SupervisionAttempts.InterruptsAreQueued | meio/src/lifecycle.rs:203-214 | a step that interrupts an actor whose queue is open puts one interrupt parcel at its end |
| SupervisionAttempts.AcceptedInterruptsAreReal | meio/src/lifecycle.rs:203-214 | in every reachable state an interrupt that an actor has accepted is queued, was handled, or was lost with its receivers |
| SupervisionAttempts.GroupHeardExactly | meio/src/lifecycle.rs:136-151 | `terminate_group` is heard by exactly the tracked children of that group that still have their receivers |
| LiteRuntime.ReceiversNeverAdvance | meio/src/lite_runtime.rs:206-219 | no `StopReceiver` and no pending future has ever seen more than the initial version |
| LiteRuntime.StopSignalsAreNeverLost | meio/src/lite_runtime.rs:216-242 | a future made from any clone at any time is ready at its next poll if and only if Stop was sent or all senders are gone |
| LiteRuntime.SignalsStay | meio/src/lite_runtime.rs:147-151 | once the signal is there it stays |
| LiteRuntime.JustDoneExactly | meio/src/lite_runtime.rs:236-242 | a receiver that has seen nothing is released exactly when Stop was sent or no sender is left |
| LiteRuntime.EvolvedStays | meio/src/lite_runtime.rs:147-151 | whatever the holders of senders do, a channel that is over stays over, and Stop is there only if it was sent |
| LiteRuntime.EvolvedExactly | meio/src/lite_runtime.rs:141-152 | sends, clones and drops of senders change the value and the number of senders as they should |
| LiteRuntime.FromError | meio/src/lite_runtime.rs:281-288 | Interrupted stands for a stop and for nothing else, and every other error is kept |
| LiteRuntime.AwaitStop | meio/src/lite_runtime.rs:236-242 | the loops of `just_done` and `join` end at the first poll that finds Stop or no senders, and not before |
| LiteRuntime.Or | meio/src/lite_runtime.rs:223-233 | a stop seen first is an error even if the other future is ready as well; otherwise its output |
| LiteRuntime.DefaultRoutine | meio/src/lite_runtime.rs:41-47 | ends as Interrupted if the stop is seen first, else with the task's own result |
| Interactions.ResolvesExactlyOnce | meio/src/handlers.rs:243-261 | over every run a request is resolved at most once, is unresolved only while it is queued, never after the finish, and its outcome never changes |
| Interactions.OutcomeMeansMoment | meio/src/handlers.rs:316-324 | a send error means that the queue was closed when asking, an answer that the handler was called with this request, a cancellation that it was still queued at the finish |
| Interactions.StepKeeps | meio/src/handlers.rs:243-324 | each step keeps the account of requests |
| Forwarders.InterruptableRoutine | meio/src/forwarders.rs:42-50 | sends all items in order and then one end, or stops at the first refusal |
| Forwarders.StreamsStayOrdered | meio/src/handlers.rs:566-578 | under any interleaving, what the actor handled of one stream is a prefix of its items followed by its end |
| Forwarders.StepKeeps | meio/src/forwarders.rs:42-50 | of every stream the actor was sent exactly what its forwarder has sent so far |
| Forwarders.ForwardersEndComplete | meio/src/forwarders.rs:42-50 | a forwarder that has ended without an interrupt, while the actor has its queue, has sent all items and then the end |
| Forwarders.AdvancesAreTheRoutine | meio/src/forwarders.rs:42-50 | the steps of a forwarder, taken in a row, send what the loop of its routine sends |
| Talkers.Talker.constructor | meio-connect/src/talker.rs:106-124 | a new talker has drained nothing; its channel may already hold messages, and the stop channel may be in any state |
| Talkers.Talker.OnFrame | meio-connect/src/talker.rs:139-156 | data frames are decoded and delivered, a close frame closes the channel, ping, pong and unknown frames are ignored, and errors end the routine |
| Talkers.Talker.TakeBranch | meio-connect/src/talker.rs:133-182 | each branch of the select |
| Talkers.Talker.Finish | meio-connect/src/talker.rs:184-188 | ends the routine if both sides are drained, with the reason |
| Talkers.Talker.IsReady | meio-connect/src/talker.rs:131-166 | a branch may be taken if it has not completed and has something to yield; the stop branch as soon as Stop was sent or no stop sender is left |
| Talkers.Talker.Routine | meio-connect/src/talker.rs:130-189 | the loop is a run of the state machine |
| Talkers.DrainsBothSides | meio-connect/src/talker.rs:130-189 | on Ok the socket got exactly the encodings of all accepted messages, in order, then one close and nothing else, and the actor got exactly the decodings of all data frames until the stream ended |
| Talkers.NeverSelectsOverNothing | meio-connect/src/talker.rs:126-182 | at each loop head the flags of the talker agree with what `select!` knows of its completed branches, at most one side is completed, and only an exhausted one |
| Talkers.InterruptedMeansStopped | meio-connect/src/talker.rs:184-188 | Interrupted is reported if and only if the stop branch has run |
| Talkers.StepKeeps | meio-connect/src/talker.rs:130-189 | each event keeps both sides accounted for |
| Talkers.ClosedExactly | meio-connect/src/talker.rs:134-153 | over every run the talker has closed its channel if and only if the stop branch has run or a close frame was consumed |
| Talkers.ErrExactly | meio-connect/src/talker.rs:139-175 | the routine fails exactly for an error item, a data frame that cannot be decoded or delivered, a message that cannot be encoded or sent, or a failing close |
| Talkers.ReadyExactly | meio-connect/src/talker.rs:133-166 | when each branch of the select may be taken |
| Talkers.OutsideExactly | meio-connect/src/talker.rs:97-99 | frames join the socket until it ends, messages join an open channel and are refused by a shut one |
| Talkers.InterruptedMeansOver | meio-connect/src/talker.rs:131-138 | a talker that reports Interrupted has found the stop channel over: Stop was sent before or during the talk exactly unless the value is still Alive, and then the last stop sender is gone |
| Talkers.InterruptedWithoutStop | meio/src/lite_runtime.rs:236-242 | for every codec, a run that ends as Interrupted although Stop is never sent |
| Talkers.StoppedMeansSent | meio/src/lite_runtime.rs:147-151 | the stop channel holds Stop if and only if it did at the start or Stop was sent through an existing sender |
| Talkers.ShutChannelsStayShut | meio-connect/src/talker.rs:135-153 | a closed channel, or one without senders, stays so and accepts nothing more |
| Client.WsClient.RunTalker | meio-connect/src/client.rs:160-168 | the talker of a connection is a run of the talker's state machine, its end is reported, and its channel is shut when it is dropped |
| Client.WsClient.Converse | meio-connect/src/client.rs:152-191 | one connection hands out one sender, the only live one then; unless the talker still runs, none is live afterwards |
| Client.WsClient.RetryLater | meio-connect/src/client.rs:193-206 | a failure is reported before the pause, a stop channel that is over wins over the sleep, and the rest of the interval never goes below zero |
| Client.WsClient.Turn | meio-connect/src/client.rs:146-207 | one turn of the loop with all its exits: the loop head ends it exactly if Stop was sent, the talk and the pause also if the stop senders are gone |
| Client.WsClient.ConnectionRoutine | meio-connect/src/client.rs:145-209 | over all reconnections at most one sender is live, none when a failure is reported or in a pause, and the log, the outcome and the stop channel are exactly those of the script |
| Client.TurnReports | meio-connect/src/client.rs:152-206 | what each end of a turn has left in the log: the sender if it connected, then the failure, `ServerNotAvailable` without a connection, `ConnectionFailed` if the talk ended with an error, `ClosedByServer` if it ended by itself |
| Client.TurnsReport | meio-connect/src/client.rs:145-209 | the same for every turn in the log of a whole run, with the rest of the interval |
| Client.ReasonExactly | meio-connect/src/client.rs:169-191 | the reason is the only one that fits |
| Client.InterruptedTalkWasOver | meio-connect/src/client.rs:170-173 | a talk that ends as interrupted has found the stop channel over; if Stop is there and was not at the loop head, it was sent during the talk |
| Client.TurnKeepsStop | meio-connect/src/client.rs:146-201 | through a turn a stop channel that is over stays over |
| Client.BetweenConnections | meio-connect/src/client.rs:146-195 | between two Connected statuses there is a Failed |
| Bind.HttpServer.HandleWaitForAddress | meio-connect/src/server/bind.rs:33-49 | a request is listed, or answered at once if an address is known |
| Bind.HttpServer.HandleAddrReady | meio-connect/src/server/bind.rs:78-90 | the address is stored and every listed request is answered with it, once, in order |
| Bind.AlwaysTidy | meio-connect/src/server/bind.rs:31-91 | no request is ever listed twice, answered twice, or both |
| Bind.WaitersConserved | meio-connect/src/server/bind.rs:31-91 | a request is still listed and unanswered if no address came yet, and else was answered exactly once, with the most recent address at that time |
| HttpListener.HttpServer.StartHttpListener | meio-connect/src/server/routine.rs:20-29 | one more task, tracked in the only group |
| HttpListener.HttpServer.HandleTaskOver | meio-connect/src/server/routine.rs:76-97 | a restart is scheduled exactly for a failure outside of termination with an interval set |
| HttpListener.HttpServer.HandleRestart | meio-connect/src/server/routine.rs:101-113 | starts a listener without looking at the state of the context |
| HttpListener.HttpServer.HandleInterrupt | meio-connect/src/server/mod.rs:69-75 | an interrupt shuts the server down |
| HttpListener.HttpServer.HandleAwake | meio-connect/src/server/mod.rs:61-67 | the first listener starts with the server |
| HttpListener.HttpServer.Turn | meio/src/actor_runtime.rs:340-438 | a turn of the runtime with the handler it calls is one step of the server |
| HttpListener.PendingRestartMeansIdle | meio-connect/src/server/routine.rs:86-94 | while a restart is scheduled or delayed no child is tracked, so a living server is not terminating |
| HttpListener.StepKeepsHealthy | meio-connect/src/server/routine.rs:76-113 | each step passes the one token on |
| HttpListener.RestartExactly | meio-connect/src/server/routine.rs:85-94 | the TaskDone of a listener schedules a restart, one interval later, if and only if it failed, an interval is set and the server is not terminating, and sends nothing otherwise |
| HttpListener.RestartsFollowFailures | meio-connect/src/server/routine.rs:85-94 | in every run each scheduled restart comes from a handled failure, one interval before its deadline |
| HttpListener.MailExactly | meio/src/lite_runtime.rs:99-108 | what the end of a listener, an interrupt and other messages put into which queue |
| HttpListener.AtMostOneListener | meio-connect/src/server/routine.rs:76-113 | in every state of every run, running listeners, their undispatched TaskDones and pending restarts are at most one together, a finished server has none, and no restart is handled by a terminating server |
| HttpListener.InterruptCancelsRestart | meio-connect/src/server/mod.rs:69-75 | an interrupt that finds a restart scheduled or delayed stops the server at once |
| HttpListener.ServerLives | meio/src/actor_runtime.rs:256-439 | in every run the context of the server lives the life of a context, so its stop decisions are those of a plain set of listeners, and its mailbox is conserved and punctual |

## Left out

- The internals of tokio, hyper and tungstenite, sockets and upgrade headers: queues, watch channels and the delay queue are modelled by their specification, and a codec is a pair of arbitrary partial functions.
- Panics, cancellation by the executor, its cooperative budget and memory ordering: channel operations are atomic steps.
- The interrupts that one walk sends to the children of a group are one step of the tree, not one step each; the children cannot observe the difference except by finishing in between.
- Unconditional liveness: a handler may ignore its interrupt and a peer may never answer, so progress is stated relative to children that finish.
- The handlers for drained queues (meio/src/actor_runtime.rs:381-390, 407-412, 420-428): they cannot run, because a context holds an address of its own actor and the delay queue is polled only when it has items; an error item of the delay queue is left out as well.
- The Rust signatures of `insert` and `insert_task` differ in the notifier only, so one method with a notifier parameter stands for both.
- The default loop of `interruptable_routine` with its retries and delays: the task's own work is an arbitrary result at an arbitrary moment.
- HttpListener.HttpServer.HandleTaskOver: the seconds of the interval are unbounded integers, and the error of a failed `schedule` is dropped, as the address of a running actor accepts it.
- In `http_listener.dfy` the spawn of a task and its insert are one step, since only the server itself looks at its records; other handlers of the server (routes, addresses) touch neither tasks nor the context.
- Client.WsClient.ConnectionRoutine: one turn of the loop per entry of a finite script; if the events of a talk end before its talker does, the result is `Talking`.
- `meio/src/compat.rs`, `meio/src/thread.rs`, `signal.rs`, `system.rs`, recipients, `Distributor` and `TaskDistributor`: wrappers, or claims about threads outside the framework.
- The parts of `ids.rs` beyond freshness and equality, heartbeats, route matching and `Svc::call`, the requests of `meio-connect` and the examples: easy members.
- The run-time checks for handlers that are called twice: an envelope is consumed by its handler, which conservation covers.
