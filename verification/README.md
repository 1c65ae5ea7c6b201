# R-IDE desktop shell: verified model

This project models the stateful parts of the R-IDE desktop application and proves what they promise.

- **Launch intents** (`LaunchIds`, `LaunchQueue`, `LaunchDispatch`, `LaunchRouter`, `LaunchInvariant`,
  `LaunchTheorems`): the id source, the bounded queue, the turn dispatcher and its guards as classes, and the
  router as a transition system in which any number of calls interleave, one step per lock section, and the
  callbacks may panic. The result is a refinement: the concurrent router emits like one sequential queue.
- **Process-tree attribution** (`ProcessTree`, `TreeSelect`, `TreeAggregate`, `TreeSnapshot`, `ProcessIdentity`): the two worklist
  passes as methods over an arbitrary iteration order, proved against a specification over the multiset of
  samples; what the tests on names and command lines recognise is spelled out by the letter.
- **Backend ownership** (`BackendOwnership`, `BackendSystem`, `BackendInvariant`, `BackendTheorems`,
  `BackendProgress`): the ownership class, and a transition system of start tasks, cleanup tasks, exit watchers, stop calls, blocking
  tasks, the retry coordinator and the shutdown callers.
- **Packaged smoke session** (`SmokePlan`, `SmokeSession`, `SmokeTheorems`): the protocol object against a
  specification that knows only the transcript, then guarantees over every sequence of calls.
- **Canonical JSON** (`JsonText`, `CanonicalJson`, `CanonicalJsonReader`): the printer, and a reader that
  inverts it.
- **Directory publication** (`PublishDirectory`): two renames with a rollback on a disk whose calls may fail.
- **Credential migration** (`AuthMigration`, `AuthTheorems`): an asynchronous activation that may be disposed at
  every await and inside every read.

`dafny verify dfyconfig.toml` checks everything.

## How the model is built

State that the program changes in place is a class. Its methods are proved against functions on a value of the
same content (`Model()`), and the guarantees are lemmas about whole runs of those functions, or of a transition
system that uses them. A transition system has a `Step` type, `Can` and `Do`; `IsRun` and `After` describe its
runs. What the operating system, a callback or another thread decides is a parameter of the step, or a
nondeterministic choice in the method.

Assumptions, each stated where it is used:

- `GoodStart`: an initial launch intent has a nonzero id, as `parse_args` guarantees (`launch_intent.rs:507`).
  Callbacks do not call back into the router.
- CPU usage is a real number; `f32` rounding is not modelled. Memory and counts saturate at 64 bits, and `usize`
  is taken as 64 bits wide.
- A reservation in the backend system needs a generation below `u64::MAX`, that is fewer than 2^64 reservations;
  the first one precedes everything else. The shutdown leader is not cancelled and no mutex is poisoned.
- The comment on `BackendOwnershipState` says that a stop cannot be undone by a late spawn. `complete_start` and
  `clear_spawn` both reset `stopping`, so this is not a property of one method but of their combination
  (`StopCannotBeUndone`).
- A finite number is identified with the text that `JSON.stringify` prints for it, and -0 prints as 0.
- `existsSync` tells the truth, a failed rename has no effect, and no other process touches the three paths.

## Model

| member | source | states |
|---|---|---|
| `LaunchIds.LaunchIntentIdSource.Next` | app/applications/tauri/src-tauri/src/launch_intent.rs:59-77 | the compare-exchange loop under any interference: an issued id is nonzero and is the one after exactly the ids others took meanwhile; the first undisturbed attempt succeeds, an uncontended one with the id at hand; an exhausted source stays exhausted |
| `LaunchIds.AdvanceNeverWraps` | app/applications/tauri/src-tauri/src/launch_intent.rs:47-77 | advancing any number of times adds, until zero is reached for good after `u64::MAX` |
| `LaunchIds.IdsAreConsecutive` | app/applications/tauri/src-tauri/src/launch_intent.rs:47-77 | for any number of threads and any interleaving of loads, exchanges and failed exchanges, the ids are `first`, `first + 1`, … in order, and a call gives up only when all are gone |
| `LaunchQueue.LaunchIntentQueue.Enqueue` | app/applications/tauri/src-tauri/src/launch_intent.rs:108-125 | the new queue and the deliveries, including duplicates and eviction of the oldest; what a run of such calls amounts to is `QueueIsBoundedFifo` |
| `LaunchQueue.LaunchIntentQueue.MarkReady` | app/applications/tauri/src-tauri/src/launch_intent.rs:127-135 | hands over everything that waits, once, and moves it in flight |
| `LaunchQueue.LaunchIntentQueue.Acknowledge` | app/applications/tauri/src-tauri/src/launch_intent.rs:137-144 | true exactly for a delivery in flight or consumed before, which it makes consumed |
| `LaunchQueue.QueueIsBoundedFifo` | app/applications/tauri/src-tauri/src/launch_intent.rs:90-144 | over every run the buffer is exactly the last `maximum` unseen early arrivals in order, nothing waits once ready, and what was handed over is those survivors followed by every later arrival |
| `LaunchQueue.ArrivalsSplit` | app/applications/tauri/src-tauri/src/launch_intent.rs:90-135 | evicted, waiting and handed-over intents together are the unseen arrivals in their order |
| `LaunchQueue.IdsAreConserved` | app/applications/tauri/src-tauri/src/launch_intent.rs:81-149 | the seen ids are at all times the disjoint union of evicted, pending, in-flight and consumed |
| `LaunchQueue.ConsumedExactly` | app/applications/tauri/src-tauri/src/launch_intent.rs:137-144 | an id is consumed exactly when some acknowledgement named it after it was handed over |
| `LaunchQueue.DeliveredOnce` | app/applications/tauri/src-tauri/src/launch_intent.rs:108-135 | over any run no id is handed over for delivery twice |
| `LaunchDispatch.DeliveryDispatcher.PollTurn` | app/applications/tauri/src-tauri/src/launch_intent.rs:228-253 | one pass of the waiting loop: taken exactly at the current turn, blocked exactly before it, otherwise stale |
| `LaunchDispatch.DeliveryDispatcher.Cancel` | app/applications/tauri/src-tauri/src/launch_intent.rs:255-263 | cancels a ticket that is not past and moves on over cancelled ones, otherwise nothing |
| `LaunchDispatch.DeliveryDispatcher.Complete` | app/applications/tauri/src-tauri/src/launch_intent.rs:265-280 | ends the current turn only for its holder; ticket `u64::MAX` exhausts the dispatcher |
| `LaunchDispatch.DeliveryDispatcher.SkipCancelled` | app/applications/tauri/src-tauri/src/launch_intent.rs:282-289 | the skipping loop, also at the last ticket |
| `LaunchDispatch.SkipStopsAtFirstGap` | app/applications/tauri/src-tauri/src/launch_intent.rs:282-289 | skipping stops at the first ticket that is not cancelled and forgets exactly the cancellations it passed |
| `LaunchDispatch.DeliveryBatchGuard.Release` | app/applications/tauri/src-tauri/src/launch_intent.rs:322-331 | removes the one ticket from the guard, wherever it stands, or nothing |
| `LaunchDispatch.WithoutAt` | app/applications/tauri/src-tauri/src/launch_intent.rs:322-331 | releasing a ticket keeps the order of all others |
| `LaunchDispatch.CompletingPasses` | app/applications/tauri/src-tauri/src/launch_intent.rs:265-280 | ending the current turn passes its ticket and then only cancelled ones; ending any other changes nothing |
| `LaunchDispatch.DeliveryBatchGuard.Drop` | app/applications/tauri/src-tauri/src/launch_intent.rs:334-344 | gives up every ticket it holds: those not past are passed or stay cancelled, the turn stops at the first ticket neither cancelled before nor held, and no other ticket is touched |
| `LaunchDispatch.AllCancelledGivesUp` | app/applications/tauri/src-tauri/src/launch_intent.rs:255-289 | the same of the dispatcher for any list of tickets given back one by one |
| `LaunchRouter.LaunchIntentRouterState.Schedule` | app/applications/tauri/src-tauri/src/launch_intent.rs:185-203 | numbers the intents under the lock; without tickets left it acknowledges instead of scheduling |
| `LaunchRouter.SchedulingKeepsEverything` | app/applications/tauri/src-tauri/src/launch_intent.rs:185-203 | while tickets last, the batch is all intents, in order, under consecutive tickets, and the queue is untouched |
| `LaunchInvariant.DeliveriesFit` | app/applications/tauri/src-tauri/src/launch_intent.rs:47-77 | if every id is nonzero, no run of the queue hands over more than `u64::MAX` intents |
| `LaunchInvariant.TicketsSuffice` | app/applications/tauri/src-tauri/src/launch_intent.rs:185-203 | so whatever the queue hands over next finds tickets left, and all of it is scheduled |
| `LaunchInvariant.StaleIsUnreachable` | app/applications/tauri/src-tauri/src/launch_intent.rs:457-492 | the stale-ticket branch of the delivery loop cannot be taken |
| `LaunchInvariant.StepKeepsInv` | app/applications/tauri/src-tauri/src/launch_intent.rs:228-344 | every step of every thread, panics included, keeps the ticket partition, the histories of queue, ids, emissions and acknowledgements |
| `LaunchTheorems.OutstandingTickets` | app/applications/tauri/src-tauri/src/launch_intent.rs:205-344 | in every reachable state each outstanding ticket is cancelled or owned by exactly one call, and the owner of the current turn has it in front |
| `LaunchTheorems.SomebodyAdvances` | app/applications/tauri/src-tauri/src/launch_intent.rs:457-492 | while anybody delivers, some delivering call can take a step of its own: no deadlock |
| `LaunchTheorems.AdvancingLowersWork` | app/applications/tauri/src-tauri/src/launch_intent.rs:457-492 | each such step, also a panic, strictly lowers the work left |
| `LaunchTheorems.DeliveryTerminates` | app/applications/tauri/src-tauri/src/launch_intent.rs:457-492 | without new arrivals every continuation is bounded by the work left, and a stuck one has finished every delivery |
| `LaunchTheorems.AtMostOneEmits` | app/applications/tauri/src-tauri/src/launch_intent.rs:228-253 | two calls never emit at the same time |
| `LaunchTheorems.EmissionsFollowTheSchedule` | app/applications/tauri/src-tauri/src/launch_intent.rs:184-203 | the emissions of the concurrent router are the queue's deliveries in order, without exactly the tickets given up by a panic; each intent at most once, a failed one never again |
| `LaunchTheorems.NoIntentIsDropped` | app/applications/tauri/src-tauri/src/launch_intent.rs:184-203 | no step finds a stale ticket, every delivery of the queue is scheduled, and the consumed ids are the successfully emitted ones and some the frontend acknowledged; a failed emission alone consumes nothing |
| `LaunchTheorems.EmissionsAreAcknowledged` | app/applications/tauri/src-tauri/src/launch_intent.rs:473-492 | in every reachable state a successful emission consumes its intent, which is then not in flight, and a failed one leaves the queue unchanged |
| `LaunchTheorems.ConsumedForever` | app/applications/tauri/src-tauri/src/launch_intent.rs:137-149 | in every continuation a consumed id stays consumed and never gets in flight again |
| `LaunchTheorems.DoomedGivesUp` | app/applications/tauri/src-tauri/src/launch_intent.rs:309-344 | after a panic a call emits nothing more, and each ticket it still had is given up before it returns |
| `LaunchTheorems.OnlyPanicsGiveUp` | app/applications/tauri/src-tauri/src/launch_intent.rs:309-344 | without a panic nothing is given up: once nobody delivers, everything scheduled has been emitted, in order |
| `ProcessTree.ReachableIffWalk` | app/applications/tauri/src-tauri/src/performance.rs:276-326 | reachability from the root by parent links is the existence of a walk down the tree |
| `ProcessTree.DepthIsUnique` | app/applications/tauri/src-tauri/src/performance.rs:328-417 | the way up to the root is unique, also with a parent cycle through the root |
| `ProcessTree.ClosedAndReachable` | app/applications/tauri/src-tauri/src/performance.rs:310-325 | a set of reachable pids closed under children is all that is reachable |
| `ProcessTree.IndexChildren` | app/applications/tauri/src-tauri/src/performance.rs:304-308 | the child index lists exactly the children, whatever the iteration order of the hash map |
| `TreeSelect.ResolvedIsConsistent` | app/applications/tauri/src-tauri/src/performance.rs:276-302 | the conflict resolution is determined by the rows: it does not depend on their order |
| `TreeSelect.SnapshotScratch.ResolveConflicts` | app/applications/tauri/src-tauri/src/performance.rs:276-302 | keeps exactly the pids all of whose rows name one parent |
| `TreeSelect.SnapshotScratch.Explore` | app/applications/tauri/src-tauri/src/performance.rs:314-323 | the worklist ends on every topology, cycles and conflicting duplicates included |
| `TreeSelect.SortAscending` | app/applications/tauri/src-tauri/src/performance.rs:324-325 | the pids in ascending order |
| `TreeSelect.SnapshotScratch.SelectRideTree` | app/applications/tauri/src-tauri/src/performance.rs:276-326 | true exactly when the root has a consistent row; then the selected pids are, ascending and without repeats, exactly those reachable through consistent rows |
| `TreeAggregate.UniqueByPid` | app/applications/tauri/src-tauri/src/performance.rs:335-345 | the rows kept are a function of the multiset of samples: those whose pid occurs once |
| `TreeAggregate.KeptRowsAgree` | app/applications/tauri/src-tauri/src/performance.rs:335-345 | that function is the only map keeping exactly the samples that stand alone |
| `TreeAggregate.AttributeTallies` | app/applications/tauri/src-tauri/src/performance.rs:386-407 | charging one more process updates all nine groups to their tallies |
| `TreeAggregate.ChargeNext` | app/applications/tauri/src-tauri/src/performance.rs:379-417 | one turn of the attribution worklist keeps the tallies of the visited set |
| `TreeAggregate.Accumulate` | app/applications/tauri/src-tauri/src/performance.rs:357-417 | the accumulators end as the tallies of the whole reachable tree |
| `TreeAggregate.AggregateSnapshot` | app/applications/tauri/src-tauri/src/performance.rs:328-429 | counts, saturating memory and CPU shares of every group are those of a specification over the multiset of samples, with each Codex channel the one of the nearest self-or-ancestor Codex root |
| `TreeSnapshot.PruningIsInvisible` | app/applications/tauri/src-tauri/src/performance.rs:236-326 | attributing only the pids of the selected tree is attributing all processes |
| `TreeSnapshot.TopologyAgrees` | app/applications/tauri/src-tauri/src/performance.rs:88-93 | with unique pids the cheap topology and the full rows agree on every parent |
| `TreeSnapshot.SamplerState.SnapshotFromState` | app/applications/tauri/src-tauri/src/performance.rs:236-274 | every error in its order, and otherwise the attribution of the live samples of the selected tree; the reused buffers have no influence |
| `TreeSnapshot.SamplerAttributesEverything` | app/applications/tauri/src-tauri/src/performance.rs:236-274 | when both passes see the same processes, the two-pass sampler answers as if it had probed the whole process table |
| `TreeSnapshot.ChargedOnce` | app/applications/tauri/src-tauri/src/performance.rs:388-407 | each process of the tree belongs to exactly one of five groups, and to Codex-agent exactly when to one of its three parts |
| `TreeSnapshot.UsageIsConserved` | app/applications/tauri/src-tauri/src/performance.rs:373-445 | total is the combination of its five groups and Codex-agent of its three: counts and memory exactly (saturating), CPU as bounds both ways, every share within [0, 100] |
| `TreeSnapshot.SharesScaleBack` | app/applications/tauri/src-tauri/src/performance.rs:439-445 | a share that needs no clamping, multiplied back by the processors, is the raw sum; memory and count are untouched |
| `TreeSnapshot.OneProcessCounts` | app/applications/tauri/src-tauri/src/performance.rs:431-437 | one process counts with its memory, one, and its CPU reading if that is finite and not negative |
| `ProcessIdentity.NamesAreExact` | app/applications/tauri/src-tauri/src/performance.rs:447-455 | the name test holds exactly when path or process name is a folder prefix followed by the name in any case |
| `ProcessIdentity.TokensAreHeld` | app/applications/tauri/src-tauri/src/performance.rs:457-463 | the token test holds exactly when the command line has the word, in any case, between separators |
| `ProcessIdentity.ChannelsAreNamed` | app/applications/tauri/src-tauri/src/performance.rs:465-478 | an app server is exactly a `codex` or `codex.exe` with the token `app-server`, an SDK process exactly one with `exec` and without `app-server` |
| `ProcessIdentity.HelpersAreNamed` | app/applications/tauri/src-tauri/src/performance.rs:480-495 | the ten helper names, by the letter |
| `ProcessIdentity.PluginHostsAreMarked` | app/applications/tauri/src-tauri/src/performance.rs:497-509 | exactly the processes with `plugin-host`, in any case, in path, name or command line |
| `ProcessIdentity.CodexProcessesAreCharged` | app/applications/tauri/src-tauri/src/performance.rs:386-404 | in every attribution an ordinary `codex app-server` process is counted as app server, an ordinary `codex exec` process as SDK, and each as agent |
| `ProcessIdentity.CommandsFollowTheirParent` | app/applications/tauri/src-tauri/src/performance.rs:386-416 | a child of a Codex process is charged to the commands, a helper child to the channel of its parent |
| `BackendOwnership.BackendOwnershipState.ReserveStart` | app/applications/tauri/src-tauri/src/startup.rs:1921-1931 | forgets everything, an earlier stop included, and starts a new generation, wrapping at `u64::MAX`; what that is for is `ReservedStartsRun` |
| `BackendOwnership.BackendOwnershipState.RegisterOrRetainTree` | app/applications/tauri/src-tauri/src/startup.rs:1937-1978 | under one lock: registered exactly for the current, not cancelled start; retained for the current start in any case |
| `BackendOwnership.BackendOwnershipState.RetainTreeForCancelledStart` | app/applications/tauri/src-tauri/src/startup.rs:1946-1962 | only for the current start and without a tree yet |
| `BackendOwnership.BackendOwnershipState.RegisterOwnedSpawn` | app/applications/tauri/src-tauri/src/startup.rs:1964-1978 | only for the current start, and not while stopping |
| `BackendOwnership.BackendOwnershipState.RequestTreeStop` | app/applications/tauri/src-tauri/src/startup.rs:1980-1986 | idempotent stop request that answers with the owned tree |
| `BackendOwnership.BackendOwnershipState.RequestStop` | app/applications/tauri/src-tauri/src/startup.rs:1988-1995 | moves the live root to the stopping one |
| `BackendOwnership.BackendOwnershipState.CompleteStart` | app/applications/tauri/src-tauri/src/startup.rs:1997-2006 | ends the current reservation only, with its reset of `stopping` |
| `BackendOwnership.BackendOwnershipState.ClearSpawn` | app/applications/tauri/src-tauri/src/startup.rs:2008-2025 | releases a stopping or a live root, with its reset of `stopping` |
| `BackendOwnership.BackendOwnershipState.ClearTree` | app/applications/tauri/src-tauri/src/startup.rs:2027-2036 | releases only for the handle that owns the tree |
| `BackendOwnership.BackendOwnershipState.MarkRootExited` | app/applications/tauri/src-tauri/src/startup.rs:2041-2047 | notes the exit of an owned root only |
| `BackendOwnership.BackendOwnershipState.MarkTreeRootExited` | app/applications/tauri/src-tauri/src/startup.rs:2049-2059 | notes the exit only for the handle that owns the tree |
| `BackendOwnership.ReservedStartsRun` | app/applications/tauri/src-tauri/src/startup.rs:1921-1978 | whatever came before, a tree registered for a fresh reservation is owned and active |
| `BackendOwnership.StoppedStartsAreRetained` | app/applications/tauri/src-tauri/src/startup.rs:1946-1962 | a start overtaken by a stop does not become active but is owned for cleanup |
| `BackendOwnership.StopsKeepWhatIsOwned` | app/applications/tauri/src-tauri/src/startup.rs:1980-1995 | a stop ends all activity and loses neither root, tree nor reservation |
| `BackendOwnership.ClearingEndsTheOwnedRoot` | app/applications/tauri/src-tauri/src/startup.rs:2008-2025 | clearing the owned root ends all owned work, any other pid changes nothing |
| `BackendOwnership.ExitedRootsAreInactive` | app/applications/tauri/src-tauri/src/startup.rs:2041-2059 | a root seen to exit is inactive at once and stays owned until its tree is cleared |
| `BackendOwnership.RunKeepsWf` | app/applications/tauri/src-tauri/src/startup.rs:1909-2059 | in every run at most one of reservation, live root and stopping root exists, and a tree only beside its root |
| `BackendOwnership.StopCannotBeUndone` | app/applications/tauri/src-tauri/src/startup.rs:1906-2089 | after a stop request no sequence of operations without a new reservation makes any pid active again |
| `BackendOwnership.GenerationCounts` | app/applications/tauri/src-tauri/src/startup.rs:1921-1931 | the generation counts the reservations modulo 2^64 |
| `BackendOwnership.StaleTokenIsHarmless` | app/applications/tauri/src-tauri/src/startup.rs:1937-2006 | an old token is current again exactly after a multiple of 2^64 reservations; before that, registering, retaining and completing with it change nothing |
| `BackendOwnership.StaleTreeIsHarmless` | app/applications/tauri/src-tauri/src/startup.rs:2027-2059 | once a tree is released, clearing it or marking its exit changes nothing, whatever pids are reused |
| `BackendOwnership.PidAloneReleasesTheWrongTree` | app/applications/tauri/src-tauri/src/startup.rs:2008-2036 | the owner check is needed: with a reused pid, clearing by pid releases the new tree |
| `BackendOwnership.CurrentTreeReleasesEverything` | app/applications/tauri/src-tauri/src/startup.rs:2027-2036 | clearing the current tree always releases all owned work |
| `BackendOwnership.OwnedTreeHasOwnedRoot` | app/applications/tauri/src-tauri/src/smoke.rs:1446-1451 | the owned tree always belongs to the owned root, and a pending start excludes both |
| `BackendInvariant.ReleaseIsSignalled` | app/applications/tauri/src-tauri/src/sidecar.rs:698-720 | every step of any actor that ends the owned work owes a notification |
| `BackendInvariant.OwnershipEvolves` | app/applications/tauri/src-tauri/src/startup.rs:1909-2089 | no step other than a reservation changes the generation or brings owned work back |
| `BackendTheorems.StepKeepsInv` | app/applications/tauri/src-tauri/src/sidecar.rs:2890-3095 | every step of start task, cleanup, stop call, blocking task, coordinator and shutdown keeps the invariants |
| `BackendTheorems.NoTreeIsForgotten` | app/applications/tauri/src-tauri/src/sidecar.rs:1036-1065 | in every run a claimed tree is owned, or killed and reaped (or force-terminated), or about to be offered by the pending start |
| `BackendTheorems.ClaimedTreesAreAccepted` | app/applications/tauri/src-tauri/src/sidecar.rs:584-605 | the offer is never refused: registered when the start is still wanted, otherwise retained as stopping |
| `BackendTheorems.OnlyConfirmedTreesAreReleased` | app/applications/tauri/src-tauri/src/sidecar.rs:1036-1065 | a tree leaves the ownership only once its termination and reaping, or forced termination, are established |
| `BackendTheorems.RetriesStartFromNothing` | app/applications/tauri/src-tauri/src/lib.rs:215-260 | a new generation is reserved only with nothing owned, all earlier trees confirmed gone, and retries not stopped |
| `BackendTheorems.NoWakeupIsLost` | app/applications/tauri/src-tauri/src/sidecar.rs:2946-2960 | a waiter asleep after the last release can wake, at the latest after the next notification on its way |
| `BackendTheorems.AnswersAreTruthful` | app/applications/tauri/src-tauri/src/sidecar.rs:3026-3056 | an answered success is true and stays true until the next reservation; a failure means a timeout, a failed task, or work still owned at the deadline |
| `BackendTheorems.OneStopTaskAtATime` | app/applications/tauri/src-tauri/src/sidecar.rs:3004-3056 | at most one blocking stop task exists, also after its caller has timed out |
| `BackendTheorems.CallsNeverStick` | app/applications/tauri/src-tauri/src/sidecar.rs:3026-3095 | a stop call that has not returned can always go on by itself |
| `BackendTheorems.ShutdownRunsOnce` | app/applications/tauri/src-tauri/src/lib.rs:107-193 | for any number of callers: one leader, the gateway stop at most once, the backend cleanup at most once and after it, whatever the gateway answered, and every caller told the combination of the two results |
| `BackendTheorems.ShutdownNeverSticks` | app/applications/tauri/src-tauri/src/lib.rs:107-193 | while a caller waits, the leader, the stop call it waits for, or the caller itself can go on |
| `BackendTheorems.ShutdownIsFinal` | app/applications/tauri/src-tauri/src/lib.rs:412-440 | once the retries are stopped no later step reserves a start; after a success nothing is ever owned again |
| `BackendProgress.RetriesRun` | app/applications/tauri/src-tauri/src/lib.rs:238-250 | a start reserved by the coordinator and not stopped since is registered active, whatever was stopped before the reservation |
| `BackendProgress.FirstStartRuns` | app/applications/tauri/src-tauri/src/sidecar.rs:584-605 | the first start likewise |
| `BackendProgress.StopTasksTakeEffect` | app/applications/tauri/src-tauri/src/sidecar.rs:2890-2921 | a stop task ends all activity, keeps what is owned and works on the owned tree |
| `BackendProgress.StopsLastUntilTheNextReservation` | app/applications/tauri/src-tauri/src/startup.rs:1906-1909 | in every run nothing is active after a stop until the next reservation |
| `BackendProgress.ReservationsLaunch` | app/applications/tauri/src-tauri/src/lib.rs:238-250 | a reservation launches a start that can claim and register its tree; after shutdown has begun there is none |
| `BackendProgress.StopsDecideRetries` | app/applications/tauri/src-tauri/src/lib.rs:197-213 | the coordinator goes on exactly with a stop that succeeded |
| `BackendProgress.IdleStopsSucceed` | app/applications/tauri/src-tauri/src/sidecar.rs:3026-3047 | with nothing owned a stop runs straight through to success |
| `BackendProgress.BusyStopsWait` | app/applications/tauri/src-tauri/src/sidecar.rs:3037-3056 | a stop that found something owned waits for its release, whatever its task reported |
| `BackendProgress.KilledTreesAreReleased` | app/applications/tauri/src-tauri/src/sidecar.rs:3079-3095 | a forced exit releases the tree exactly if killing it succeeded |
| `BackendProgress.ReservationsWereAccepted` | app/applications/tauri/src-tauri/src/lib.rs:224-246 | a start is reserved only directly after the gateway accepted the retry |
| `BackendProgress.GatewayIsAskedAfterStops` | app/applications/tauri/src-tauri/src/lib.rs:197-213 | the gateway is asked only after a stop that succeeded, with nothing owned; a rejection reserves nothing |
| `BackendProgress.CleanupsComplete` | app/applications/tauri/src-tauri/src/sidecar.rs:1036-1065 | a cleanup of the owned tree needs nothing but termination and reaping to end all owned work |
| `BackendProgress.ReleasesEndOwnership` | app/applications/tauri/src-tauri/src/sidecar.rs:698-720 | the release of the owned tree ends the owned work and owes a notification |
| `BackendProgress.ForcedReleasesEndOwnership` | app/applications/tauri/src-tauri/src/sidecar.rs:3058-3095 | the forced release at exit ends the owned work, answers and frees the gate |
| `BackendProgress.EndedStartsReleaseTheirReservation` | app/applications/tauri/src-tauri/src/sidecar.rs:801-813 | a start that ends without a tree gives its reservation back and owes a notification |
| `BackendProgress.WaitersAreAnswered` | app/applications/tauri/src-tauri/src/sidecar.rs:2946-2960 | a waiter is told success at its first look after the release |
| `BackendProgress.ShutdownRecordsAnswers` | app/applications/tauri/src-tauri/src/lib.rs:169-186 | the recorded results are those the gateway stop and the cleanup call gave |
| `SmokePlan.ValidateActions` | app/applications/tauri/src-tauri/src/smoke.rs:2328-2338 | accepts exactly the action lists in strictly ascending canonical order |
| `SmokePlan.IndexIsPlace` | app/applications/tauri/src-tauri/src/smoke.rs:113-127 | the index of an action is its place among all of them |
| `SmokePlan.RequiredActionsAscend` | app/applications/tauri/src-tauri/src/smoke.rs:137-171 | what each scenario requires is in canonical order |
| `SmokePlan.CatalogByTheLetter` | app/applications/tauri/src-tauri/src/smoke.rs:2468-2478 | the six diagnostics a request may carry, and the two of a failed action, by the letter |
| `SmokePlan.RetryStandsAlone` | app/applications/tauri/src-tauri/src/smoke.rs:137-171 | a backend retry is only ever the one action of its own scenario |
| `SmokePlan.ValidateDescendants` | app/applications/tauri/src-tauri/src/smoke.rs:1095-1103 | accepts exactly distinct safe positive pids other than the root |
| `SmokePlan.ValidateObservations` | app/applications/tauri/src-tauri/src/smoke.rs:1070-1131 | accepts exactly the observations that are plausible and, for a passed run, show the backend kept or replaced exactly once |
| `SmokeSession.ReportTarget.WriteAtomically` | app/applications/tauri/src-tauri/src/smoke.rs:2489-2523 | the file holds the whole new image exactly when the write is reported as committed, otherwise the old one |
| `SmokeSession.ExtendsExactly` | app/applications/tauri/src-tauri/src/smoke.rs:871-951 | the checks on next, pending and failed action accept a step exactly when the longer transcript is well formed |
| `SmokeSession.ExtensionCounts` | app/applications/tauri/src-tauri/src/smoke.rs:887-951 | how recording moves next, pending and failed action |
| `SmokeSession.RepeatsAreNoSteps` | app/applications/tauri/src-tauri/src/smoke.rs:853-873 | the last step repeated is never a legal next step |
| `SmokeSession.ActiveProtocol.CheckStep` | app/applications/tauri/src-tauri/src/smoke.rs:871-951 | the imperative checks accept exactly the steps that extend the transcript well and come with a fitting backend generation |
| `SmokeSession.ActiveProtocol.RecordStep` | app/applications/tauri/src-tauri/src/smoke.rs:845-991 | with its cache, its bookkeeping fields and its publisher it does what the transcript-only specification does |
| `SmokeSession.ActiveProtocol.ValidateCompletion` | app/applications/tauri/src-tauri/src/smoke.rs:1153-1231 | accepts exactly the requests that fit the empty, the fully passed or the failure-ended transcript |
| `SmokeSession.ActiveProtocol.Complete` | app/applications/tauri/src-tauri/src/smoke.rs:725-750 | completion, its repeats and its refusals as the specification has them |
| `SmokeTheorems.TranscriptsAreWellFormed` | app/applications/tauri/src-tauri/src/smoke.rs:845-1231 | after any calls the transcript is Started/Passed pairs of a plan prefix with at most one open or failed end, in time order, and a completed report fits it |
| `SmokeTheorems.EveryTranscriptCanBeRecorded` | app/applications/tauri/src-tauri/src/smoke.rs:845-991 | conversely every well-formed transcript is recorded by some calls |
| `SmokeTheorems.PassedRetryAdvances` | app/applications/tauri/src-tauri/src/smoke.rs:909-926 | a passed backend retry moved the backend on by exactly one generation, in transcript and native report |
| `SmokeTheorems.CallsPublishWhatTheyCommit` | app/applications/tauri/src-tauri/src/smoke.rs:953-1040 | a call changes nothing, or has published exactly the image of what it commits; failed publications change neither file nor state |
| `SmokeTheorems.AnswersTellDurability` | app/applications/tauri/src-tauri/src/smoke.rs:972-980 | a durable publication answers without a diagnostic, a committed but unsynchronised one with the warning |
| `SmokeTheorems.FittingReportsAreAccepted` | app/applications/tauri/src-tauri/src/smoke.rs:999-1040 | every fitting report of an open session is accepted and published when the disk plays along |
| `SmokeTheorems.FileShowsTheSession` | app/applications/tauri/src-tauri/src/smoke.rs:953-1040 | from the first publication on the file is the image of the committed session |
| `SmokeTheorems.RepeatsAreHarmless` | app/applications/tauri/src-tauri/src/smoke.rs:853-873 | an accepted call repeated exactly gets the cached answer and writes nothing, whatever the disk does |
| `SmokeTheorems.NewStepsAreNotMistaken` | app/applications/tauri/src-tauri/src/smoke.rs:853-873 | no step that could be recorded as new is answered from the cache |
| `SmokeTheorems.ReportsAreFinal` | app/applications/tauri/src-tauri/src/smoke.rs:999-1040 | after a completion no call changes the session or its file |
| `JsonText.ComparesConsistently` | app/applications/tauri/copy-build-tree.js:204-206 | the comparison is zero exactly on equal texts and flips with its arguments |
| `JsonText.ComparesByUnit` | app/applications/tauri/copy-build-tree.js:204-206 | at the first difference the text with the smaller code unit comes first |
| `JsonText.PrefixComesFirst` | app/applications/tauri/copy-build-tree.js:204-206 | a proper prefix comes first |
| `JsonText.LessIsTotal` | app/applications/tauri/copy-build-tree.js:204-206 | code-unit order is total and strict |
| `JsonText.LessIsTransitive` | app/applications/tauri/copy-build-tree.js:204-206 | code-unit order is transitive |
| `JsonText.UnquoteInverts` | app/applications/tauri/copy-build-tree.js:208-211 | reading a quoted string gives it back, whatever follows, with every escape and lone surrogates |
| `CanonicalJson.SortKeysSorts` | app/applications/tauri/copy-build-tree.js:222-224 | the keys come out strictly ascending in that order |
| `CanonicalJson.KeysAscendByUnit` | app/applications/tauri/copy-build-tree.js:222-224 | of two printed keys the earlier is a proper prefix of the later or has the smaller code unit at the first difference |
| `CanonicalJson.SortIsCanonical` | app/applications/tauri/copy-build-tree.js:222-224 | two objects have the same sorted keys exactly when they have the same key set |
| `JsonText.EscapesAreStandard` | app/applications/tauri/copy-build-tree.js:208-211 | the escapes as they are written: short ones, lower-case hexadecimal for other controls and lone surrogates, the rest as is |
| `CanonicalJson.ScalarsByTheLetter` | app/applications/tauri/copy-build-tree.js:208-217 | null, booleans, numbers and strings as they are written |
| `CanonicalJson.ArraysByTheLetter` | app/applications/tauri/copy-build-tree.js:218-220 | an array is its printed items in order, with commas, in brackets |
| `CanonicalJson.ObjectsByTheLetter` | app/applications/tauri/copy-build-tree.js:221-227 | an object is its members by sorted keys, each key quoted, a colon and its own value, with commas, in braces |
| `CanonicalJson.JoinByTheLetter` | app/applications/tauri/copy-build-tree.js:219-226 | exactly one comma between any two parts |
| `CanonicalJson.SamePrintsSame` | app/applications/tauri/copy-build-tree.js:208-228 | values equal with objects as maps and -0 as 0 are printed the same, in any insertion order |
| `CanonicalJson.PrintsSupported` | app/applications/tauri/copy-build-tree.js:212-228 | printing fails exactly on values with a non-finite number or an unsupported part |
| `CanonicalJson.CanonicalIsPaired` | app/applications/tauri/copy-build-tree.js:230-232 | canonical text has no lone surrogate, so hashing its UTF-8 form loses nothing |
| `CanonicalJsonReader.ValueIsRead` | app/applications/tauri/copy-build-tree.js:208-228 | a reader gets the value (keys sorted, without -0) back from its text, whatever follows |
| `CanonicalJsonReader.TextDeterminesValue` | app/applications/tauri/copy-build-tree.js:208-228 | two printable values print equally exactly when they are equal as maps |
| `PublishDirectory.Disk.Retry` | app/applications/tauri/copy-build-tree.js:92-107 | one to twelve attempts, a further one exactly after EACCES, EBUSY, ENOTEMPTY or EPERM on Windows; the disk as after one attempt |
| `PublishDirectory.Install` | app/applications/tauri/copy-build-tree.js:109-145 | the guarded part: the old tree safe at every moment, and exactly where a failure leaves each path |
| `PublishDirectory.TidyUp` | app/applications/tauri/copy-build-tree.js:146-154 | the catch part: the old tree is back at the target or still in the backup |
| `PublishDirectory.PublishDirectoryAtomic` | app/applications/tauri/copy-build-tree.js:109-154 | under every pattern of failures the old tree is at target or backup unless the complete new one is at the target, which is never partial; the exact meaning of returning and throwing; success when nothing fails |
| `AuthMigration.ReadLegacyPreferences` | app/theia-extensions/codex/src/browser/ride-codex-auth-controller.ts:291-309 | the first unusable preference is reported, then a conflict exactly when two keys differ, otherwise all entries in order |
| `AuthMigration.FoundInPlace` | app/theia-extensions/codex/src/browser/ride-codex-auth-controller.ts:295-303 | the entries are exactly the readable preferences, with their names and values, in order |
| `AuthMigration.RideCodexAuthController.Activate` | app/theia-extensions/codex/src/browser/ride-codex-auth-controller.ts:145-160 | starts once, reads, and asks for consent or goes on without legacy keys, as the specification the guarantees are proved about |
| `AuthMigration.RideCodexAuthController.Dispose` | app/theia-extensions/codex/src/browser/ride-codex-auth-controller.ts:163-173 | cancels an activation under way, as the specification the guarantees are proved about |
| `AuthMigration.RideCodexAuthController.AnswerPrompt` | app/theia-extensions/codex/src/browser/ride-codex-auth-controller.ts:207-220 | goes on only with accepted consent while current, as the specification the guarantees are proved about |
| `AuthMigration.RideCodexAuthController.AnswerStatus` | app/theia-extensions/codex/src/browser/ride-codex-auth-controller.ts:228-234 | goes on only with a confirmed API-key login while current, as the specification the guarantees are proved about |
| `AuthMigration.RideCodexAuthController.ContinueRemoving` | app/theia-extensions/codex/src/browser/ride-codex-auth-controller.ts:235-249 | re-reads the preference and starts the removal only while current and unchanged, as the specification the guarantees are proved about |
| `AuthMigration.RideCodexAuthController.EndRemoval` | app/theia-extensions/codex/src/browser/ride-codex-auth-controller.ts:246-267 | books every outcome, also after a disposal, as the specification the guarantees are proved about |
| `AuthMigration.RideCodexAuthController.Verify` | app/theia-extensions/codex/src/browser/ride-codex-auth-controller.ts:269-281 | the read-back loop, as the specification the guarantees are proved about |
| `AuthTheorems.StepKeeps` | app/theia-extensions/codex/src/browser/ride-codex-auth-controller.ts:145-358 | every answer, and a disposal at any await or inside any read, keeps the invariants |
| `AuthTheorems.RemovalsAreAuthorised` | app/theia-extensions/codex/src/browser/ride-codex-auth-controller.ts:201-274 | in every interleaving a removal starts only after accepted consent and confirmed API-key login, and never after a disposal |
| `AuthTheorems.MigratedMeansRemoved` | app/theia-extensions/codex/src/browser/ride-codex-auth-controller.ts:236-289 | `migrated` implies every listed preference was removed and read back as absent |
| `AuthTheorems.ManualMeansUntouched` | app/theia-extensions/codex/src/browser/ride-codex-auth-controller.ts:340-356 | `manual` implies that no removal was ever begun; so none succeeded or is of unknown outcome |
| `AuthTheorems.UndisturbedAnswersSettle` | app/theia-extensions/codex/src/browser/ride-codex-auth-controller.ts:186-267 | without a disposal each answer leads where it should: `ready` after a good account answer, `manual` after refused consent, `recovery-required` after a failure |
| `AuthTheorems.ChangedPreferencesAreKept` | app/theia-extensions/codex/src/browser/ride-codex-auth-controller.ts:239-249 | a removal starts exactly on a preference that still has the scanned value |
| `AuthTheorems.UndisturbedMigrationSucceeds` | app/theia-extensions/codex/src/browser/ride-codex-auth-controller.ts:207-281 | for any legacy entries there is a run, with consent, login, all removals and read-backs, that ends `migrated` |
| `AuthTheorems.DisposalOutcome` | app/theia-extensions/codex/src/browser/ride-codex-auth-controller.ts:163-173 | a disposal during the activation says `manual` exactly when nothing was begun and there is something to handle |
| `AuthTheorems.DisposalDecides` | app/theia-extensions/codex/src/browser/ride-codex-auth-controller.ts:163-173 | a disposal decides the state for good: the repair of a `manual` state never fires |

## Left out

- Operating-system calls: process claims, signals, Job Objects, PTYs, sockets and windows appear only as outcomes a step may choose.
- The pid-only cleanup of Windows PTY backends, which the program refuses to start (`sidecar.rs:581-582`); `BackendOwnership.ClearPid` is modelled as an operation only.
- `startup_gateway.rs` is not part of this model: its answer to a retry request is chosen freely, so nothing here rests on its generations.
- Path and URL parsing of launch intents (`launch_intent.rs:501-733`) and the HTML rewriting of the build copy.
- The delivery report of the router: which failures a call returns to its own caller.
- Timeouts of the visibility gate and `frontend_ready_after_show`.
- The download life cycle.
- Reading and validating a smoke specification other than its action list, the collection of native observations, and the constant time of the proof comparison.
- Smoke sessions that are disabled or rejected answer with a constant.
- The report file as bytes: its size limit is one of the reasons a publication may not commit.
- Arrays with holes, class instances and `toJSON` in canonical JSON, and the hash itself.
- A rename onto an existing path is taken to fail, also where a platform would replace an empty directory.
- The messages and the relay of the credential controller, and what makes a preference value usable (`isBoundedLegacySecret`).
- A sequential method for `deliver_after`: it is the steps of a delivering call, from `FinishBefore` to `Return`.
- TreeAggregate.AggregateSnapshot: CPU sums are over the reals, because `f32` addition depends on the order of visits.
- LaunchTheorems.DeliveryTerminates: speaks of continuations without new arrivals; it does not model the fairness of the scheduler.
- BackendTheorems.ShutdownNeverSticks: states that somebody can go on, not a bound on the number of steps, because notifications may wake a waiter any number of times before its deadline.
