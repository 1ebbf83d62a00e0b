# Delegate tree controller: a Dafny model

The delegate tree controller runs a fleet of child agents for one root session. It is a mutex-guarded object over a durable
event journal and some fifteen process-local tables: reservations, runtimes and their bindings, claims of running generations,
delivery claims and receipts, inline waiters, lane handoffs, runtime reclamation, and one pending subtree stop. This project
models it, the journal fold beneath it, and five independent pieces beside it (the attention drive's rotation, the quiet
watchdog, the grace timers, history repair, API-log paging), and proves what holds in every run.

## How it is built

* **The journal** (`Types`, `Tree`, `Journal`, `JournalLaws`). Events, records, and the fold with all its refusals; laws of every
  journal the fold accepts.
* **The state machine** (`State`, `Settle`, `Finishing`, `Starting`, `Claims`, `Delivering`, `Stopping`, `Fences`, `Machine`).
  `State` holds the tables. Each critical section of the controller is one step function from state to state; `Next` dispatches
  over all of them and `Run` is any sequence of steps, so a run is any interleaving. Every append may fail (`storeOk`), a process
  may restart at any point (`DoRestart` empties the tables and rebuilds the stop from the journal), and what the environment
  decides (clock values, minted ids, a cancelled context, the history a model request is made over) is a parameter of the step.
  Step functions carry frame contracts: what they leave alone.
* **The invariant** (`Effects`, `Invariants`, `ClaimKept`, `FinishKept`, `StartKept`, `DeliverKept`, `StopKept`, `FenceKept`,
  `Writes`, `Accounts`, `Lanes`, `Exclusive`, `Carriers`, `Waiters`, `Reclaim`, `Safety`). `Safety.Inv` is kept by each of the seventy steps
  (`StepKeepsInv`) and so holds in every reachable state (`RunKeepsInv`).
* **The theorems** (`RunTheorems`, `RunSteps`, `Takeover`, `Crash`): what holds in every reachable state and over whole runs.
* **What each operation leaves** (`Outcomes`, `FoldOutcomes`, `StartOutcomes`, `FinishOutcomes`, `ClaimOutcomes`, `DeliverOutcomes`,
  `StopOutcomes`, `FenceOutcomes`, `SettleOutcomes`, `Reconciling`). When an operation is accepted, and then what it writes and what
  it leaves alone, in terms of records, queues, leases, wakes and claims: both directions, on every input.
* **Runs that show a failure** (`Scenarios`, `FailingRuns`): explicit step lists from an empty tree, each step computed, to a state
  where a promised property does not hold.
* **The object** (`Controller`, `Selecting`, `Driving`). `Controllers.Controller` keeps the tables as fields (grouped in five records) and
  updates them in place, with the source's loops; each method is proved to take the state its step function gives, and to keep
  the invariant. `Reconcile`, which runs several steps under one lock, is proved to be a run of them, and `Reconciling` says what that
  run leaves.
* **The independent pieces** (`SteerProjection`, `WakeRotation`, `QuietCadence`, `GraceTimers`, `HistoryRepair`, `BodyPaging`).

Ids, tokens and runtimes are natural numbers, zero standing for the empty one. Times are natural numbers.

## Properties that fail, and when they hold

* **A stop does not fence a creation already reserved.** `agent/delegate_tree_controller.go:1061-1067` says that creation under a
  stop is refused and that no delegate is left outside the stop that covers its ancestor. Neither `commitStart` nor the fold refuses
  it. `CreationEscapesStop` is a run of eight steps (create a delegate and make it ready, reserve its child, stop the delegate, commit
  the child) after which the child runs unmarked beneath the pending stop. `OnlyLateCreationsEscape` is exact: in every reachable
  state whose stop covers everything beneath its target, every step keeps it so, unless and only unless it is the commit of a creation
  whose parent is a member, that nothing refuses and the store takes. What the stop guarantees of its members is not affected.
* **Acknowledged deliveries need not be a prefix of the posted ones.** A completed stop drops the queue of a delegate whose owner it
  covers. `AcknowledgedNeedNotBePrefix` is a run of seventeen steps in which a child's first report is dropped so and its second is
  acknowledged. `DeliveryOrder` is exact, over the events: the prefix property holds if and only if no acknowledgement of the delegate
  comes after a completed stop that covered its owner while its queue was not empty; `GapOpensExactly` is the same for one event.
  `SettledThenQueuedIsPosted` proves that acknowledged, dropped and queued deliveries together are always the posted ones in order.
* **A delivery may have two holders.** `holdDeliveryClaim` (`agent/delegate_delivery.go:917-923`) holds a carrier too, once its
  owner's attention start refused it and its waiter was given up, and `carriableHeldClaimLocked` then lets a second carrier take the
  head over from the first. `HeldCarrierBreaksExclusivity` is a run of twenty-six steps that ends with a delivery claimed and received
  at once. `DeliveriesAreExclusive` confines it: in every run deliveries are exclusive unless a carrier took over from a refused and
  held one; holding as such breaks nothing (`HoldKeeps`). `TakeoverBreaksExclusivity` is exact: once a carrier in flight is taken over,
  delivering it leaves a delivery with two holders if and only if neither a stop nor its owner's attention start refuses it.
  `RestingRunsAreExclusive` proves what `agent/delegate_delivery.go:1101-1111` argues, from a condition the caller can check: in every
  run whose holds find their owner not starting on an attention, no carrier is refused, none is held, and deliveries are exclusive.
* **A live finish and a finish after a crash may differ.** `CrashChangesNothingExactly`: the finish journaled live and the one
  journaled after a restart carry the same outcome, disposition and reason and report the same packet, whatever the run says of itself
  and whenever each happens, if and only if the prepared packet is a report or the missing-terminal packet.

* **Reconciliation may never end a lost run.** `CloseResumability` closes a delegate while it runs, and a run that used up its turns
  closes its delegate in the batch that ends it (`agent/delegate_tree_finish.go:420-428`); the fold refuses to close twice, so the batch
  is refused. `StuckRunHappens` is a journal of four events that leaves such a run settling. `LostRunLands` is exact: a lost run can be
  ended if and only if it is not that one, and `LoseRuns` ends all of them unless the store refuses or it meets one.

## Model

| member | source | states |
|---|---|---|
| Tree.SubtreeMembers | agent/delegate_tree_stop.go:546-560 | the worklist over the children index returns exactly the ids whose parent chain reaches the target |
| Tree.DeriveChildrenIndex | agent/delegate_tree_stop.go:484-500 | the derived index holds, for every delegate, exactly its durable children |
| Tree.AddChildEdgeKeepsIndexExact | agent/delegate_tree_stop.go:504-515 | adding one edge for a new delegate keeps the index equal to the derived one |
| Tree.LeafFirstOrder | agent/delegate_tree_stop.go:450-464 | every member once, deeper first, so every descendant comes before its ancestors |
| Tree.DescendantsAreDeeper | agent/delegate_tree_stop.go:466-477 | depth strictly grows down a parent chain |
| Tree.TeardownWaves | agent/delegate_tree_reclaim.go:730-749 | the entries, each once, sorted deepest first and by id and split into waves of one depth, every strict descendant in a strictly earlier wave |
| Tree.DescendantsGoFirst | agent/delegate_tree_reclaim.go:730-749 | a strict descendant lies in a strictly earlier wave than its ancestor |
| Journal.FoldBatch | agent/internal/delegatestore/store.go:108-150 | appending a batch continues the fold by exactly that batch |
| JournalLaws.FoldIsWellFormed | agent/internal/delegatestore/fold.go:26-42 | in every accepted journal phase, open run, resumability and stop mark agree, queues hold distinct deliveries of their own delegate to its parent, and only one stop is pending |
| JournalLaws.LocalKeepsAggregate | agent/internal/delegatestore/fold.go:325-477 | starts, prepared packets, finishes, closures, updates and acknowledgements keep their record well formed |
| JournalLaws.StopRequestedMarks | agent/internal/delegatestore/fold.go:479-507 | a stop request marks exactly the target's subtree, and only when no stop is pending |
| JournalLaws.StopCompletedKeepsWellFormed | agent/internal/delegatestore/fold.go:509-558 | a completed stop leaves well-formed, unmarked records |
| JournalLaws.CompletionClearsMarks | agent/internal/delegatestore/fold.go:509-558 | a completed stop clears every mark |
| JournalLaws.CreatedKeepsWellFormed | agent/internal/delegatestore/fold.go:301-323 | a created delegate joins the tree as a leaf under an older parent |
| JournalLaws.ResumabilityIsMonotone | agent/internal/delegatestore/fold.go:455-477 | closed resumability never reopens in any continuation of a journal |
| JournalLaws.GenerationsGrow | agent/internal/delegatestore/fold.go:325-361 | a delegate's generation never goes back |
| JournalLaws.OneFinishPerGeneration | agent/internal/delegatestore/fold.go:379-453 | no accepted journal finishes a generation twice |
| JournalLaws.PendingStopIsItsRequest | agent/delegate_tree_restore.go:1027-1084 | the marks of a pending stop name one request event, and are exactly its target's subtree as it was then |
| JournalLaws.SettledThenQueuedIsPosted | agent/internal/delegatestore/fold.go:560-608 | acknowledged and dropped deliveries in order, followed by the queue, are exactly the posted ones |
| JournalLaws.PostedOnce | agent/internal/delegatestore/fold.go:805-831 | no delivery is posted twice |
| JournalLaws.DeliveryOrder | agent/internal/delegatestore/fold.go:509-574 | acknowledged deliveries are a prefix of the posted ones if and only if no acknowledgement follows a completed stop that covered the owner of a nonempty queue |
| JournalLaws.GapOpensExactly | agent/internal/delegatestore/fold.go:509-558 | an event loses a queued delivery without acknowledging it exactly when it completes a stop over its owner, and then the whole queue |
| FailingRuns.AcknowledgedNeedNotBePrefix | agent/internal/delegatestore/fold.go:509-558 | a run of the machine whose journal acknowledges a later delivery of a child and never the earlier one a stop dropped |
| Settle.SettlesAlikeAfterCrash | agent/delegate_tree_intents.go:687-713 | a prepared packet settles to one verdict, whatever the run reports, exactly when it is a report or the missing-terminal packet |
| Crash.CrashChangesNothingExactly | agent/delegate_tree_restore.go:952-1010 | the finish journaled live and the one journaled after a restart agree in outcome, disposition, reason and reported packet, for every finish the run could report, exactly when the prepared packet is a report or the missing-terminal packet |
| Settle.StoppedPacketIsKept | agent/delegate_tree_finish.go:495-522 | a stop settles an error packet that keeps the run's message, restamped as stopped when the run had reported |
| Settle.FailedCauseSurvives | agent/delegate_tree_intents.go:687-713 | a failed packet keeps its recorded cause through a settlement that brings none |
| SettleOutcomes.ErrorSays | agent/delegate_tree_finish.go:551-612 | an error packet stands for an exhaustion exactly when its limit, budget and resumability agree, for a cancellation exactly with its code, and for a failure with its recorded cause otherwise |
| SettleOutcomes.OtherPacketsSay | agent/delegate_tree_finish.go:551-612 | a report completes its run at its recorded time, unreadable metadata is a plain terminal error, and the missing-terminal packet says so |
| SettleOutcomes.PreparedIsValid | agent/delegate_tree_finish.go:551-612 | whatever a packet says, what it stands for is an outcome the journal accepts |
| SettleOutcomes.VerdictIs | agent/delegate_tree_intents.go:687-713 | the run's own word counts exactly over an error packet when it did not complete; the packet decides otherwise |
| SettleOutcomes.StoppedPacketSays | agent/delegate_tree_finish.go:495-522 | a stop restamps a report with itself, keeping its message and the rest of its metadata, and keeps an error as it is |
| Effects.AppendEffect | agent/delegate_tree_controller.go:394-427 | an append writes the whole batch and the fold's result, and nothing else |
| Effects.StartEffect | agent/delegate_tree_start.go:791-824 | a start batch opens exactly the reserved generation, and a creation adds exactly its delegate |
| Effects.FinishEffect | agent/delegate_tree_intents.go:513-614 | a finish batch ends exactly its run and only adds to queues |
| Effects.StopCompleteEffect | agent/internal/delegatestore/fold.go:509-558 | a completion ends no run, clears every mark, and drops a queue exactly when its owner was covered |
| ClaimKept.BeginSteerTracks | agent/delegate_tree_steer.go:83-116 | a steer begun while a stop is pending belongs to no member, so the stop's steering set stays exact |
| ClaimKept.CompleteSteerTracks | agent/delegate_tree_steer.go:118-181 | a completed steer leaves its table and the stop's set together |
| ClaimKept.AbortSteerTracks | agent/delegate_tree_steer.go:183-193 | an aborted steer leaves its table and the stop's set together |
| ClaimKept.BeginModelTracks | agent/delegate_tree_steer.go:195-225 | a model request begun while a stop is pending belongs to no member |
| ClaimKept.CompleteModelTracks | agent/delegate_tree_steer.go:227-280 | a completed request leaves its table and the stop's set together |
| ClaimKept.AbortModelTracks | agent/delegate_tree_steer.go:282-292 | an aborted request leaves its table and the stop's set together |
| ClaimKept.BeginWorkTracks | agent/delegate_tree_work.go:19-38 | shell work begun while a stop is pending belongs to no member |
| ClaimKept.CommitWorkTracks | agent/delegate_tree_work.go:40-65 | committing work under a stop keeps it in the stop's care |
| ClaimKept.AbortWorkTracks | agent/delegate_tree_work.go:67-79 | aborted work leaves its table and the stop's set together |
| ClaimKept.FinishWorkTracks | agent/delegate_tree_work.go:81-93 | finished work leaves its table and the stop's set together |
| ClaimKept.BeginQuietTracks | agent/delegate_quiet_watch.go:257-335 | a quiet claim taken while a stop is pending belongs to no member |
| ClaimKept.CompleteQuietTracks | agent/delegate_quiet_watch.go:337-370 | a completed quiet claim leaves its table and the stop's set together |
| ClaimKept.BeginEnqueueTracks | agent/delegate_tree_watch.go:80-103 | an enqueue taken while a stop is pending touches no member |
| ClaimKept.CompleteEnqueueTracks | agent/delegate_tree_watch.go:105-126 | the delivery receipt that replaces an enqueue is tracked exactly when the enqueue was |
| ClaimKept.AbortEnqueueTracks | agent/delegate_tree_watch.go:128-144 | an aborted enqueue leaves its table and the stop's set together |
| ClaimKept.AcquireWatchTracks | agent/delegate_tree_watch.go:146-177 | a watch delivery acquired while a stop is pending touches no member |
| ClaimKept.CompleteWatchTracks | agent/delegate_tree_watch.go:179-196 | a completed watch delivery leaves its table and the stop's set together |
| FinishKept.ReleaseKeepsCore | agent/delegate_tree_start.go:878-914 | releasing a generation gives back its claims, stop tracking, binding and one slot of its kind together |
| FinishKept.ReleasedSteering | agent/delegate_tree_steer.go:304-339 | dropping a released delegate's steering claims leaves exactly those the stop still waits for |
| FinishKept.FinishWithKeepsCore | agent/delegate_tree_intents.go:167-236 | a finish lands and releases, or latches recovery and changes nothing else; either way the core invariants hold |
| FinishKept.FinishGenerationKeepsCore | agent/delegate_tree_intents.go:513-614 | ending a generation in any phase keeps the core invariants |
| FinishKept.FinishNoActionKeepsCore | agent/delegate_tree_intents.go:483-506 | the no-action finish keeps the core invariants |
| FinishKept.BeginFinalizationTracks | agent/delegate_tree_intents.go:275-343 | a settlement claim, promoted by a stop or not, belongs to a bound run and is tracked exactly when the stop covers it |
| FinishKept.CompleteSettlementKeepsCore | agent/delegate_tree_intents.go:360-396 | preparing the terminal packet keeps the core invariants |
| StartKept.ReserveCreateKeepsCore | agent/delegate_tree_start.go:109-186 | a create reservation names a fresh id and takes one turn within the limit |
| StartKept.ReserveStartKeepsCore | agent/delegate_tree_start.go:608-679 | a start reservation names an idle delegate outside any stop and takes one turn within the limit |
| StartKept.ReserveAttentionKeepsCore | agent/delegate_tree_start.go:191-235 | an attention reservation takes one drive within the limit |
| StartKept.ReserveOwedKeepsCore | agent/delegate_tree_start.go:316-341 | a bootstrap attention reservation takes one drive within the limit |
| StartKept.ReleaseReservationKeepsCore | agent/delegate_tree_start.go:681-726 | an aborted reservation gives its slot and its place in the stop back |
| StartKept.CommitStartKeepsCore | agent/delegate_tree_start.go:737-876 | a commit moves its slot from reservation to binding, or gives it back, whatever the append did |
| StartKept.CompleteStartInputKeepsCore | agent/delegate_tree_start.go:449-497 | the first input readies the run, finishes it, or finishes it as stopped; the core invariants hold |
| StartKept.FailCommittedKeepsCore | agent/delegate_tree_start.go:499-606 | a committed start that fails is finished, closed or stopped; the core invariants hold |
| DeliverKept.AdmitTracks | agent/delegate_delivery.go:273-304 | an admitted batch touches no member of a pending stop, so the stop's receipts stay exact |
| DeliverKept.CompleteDeliveryKeepsCore | agent/delegate_delivery.go:343-410 | completing, abandoning or failing to acknowledge a delivery keeps the core invariants |
| StopKept.StopSubtreeKeepsCore | agent/delegate_tree_stop.go:229-396 | a request marks and tracks exactly the subtree, and keeps the core invariants |
| StopKept.RecoverStoppedKeepsCore | agent/delegate_tree_restore.go:434-488 | finishing a recovered generation on the stop's behalf keeps the core invariants |
| StopKept.RestoredShape | agent/delegate_tree_restore.go:1027-1084 | a restart rebuilds a stop exactly when marks are pending, with its target and its members; it never fails |
| StopKept.RestartKeepsCore | agent/delegate_tree_controller.go:310-388 | a restart at any point re-establishes the core invariants |
| StopKept.LoseRuntimeKeepsCore | agent/delegate_tree_restore.go:952-1010 | ending a lost run keeps the core invariants |
| StopKept.CompleteStopKeepsCore | agent/delegate_tree_restore.go:338-415 | completing the stop keeps the core invariants |
| StopKept.ClosureKeepsCore | agent/delegate_tree_stop.go:579-623 | closing resumability keeps the core invariants |
| Writes.FinishGenerationTame | agent/delegate_tree_intents.go:513-614 | a generation finish journals the stopped outcome when stopping, never a no-action finish, and drops no delivery |
| Writes.FinishNoActionWrites | agent/delegate_tree_intents.go:427-506 | the no-action finish journals only for an eligible claim with a retained fallback, and as stopped when stopping |
| Writes.StartFailureLawful | agent/delegate_tree_start.go:933-972 | a start failure never journals an ordinary finish over a stopping run |
| Writes.LostLawful | agent/delegate_tree_restore.go:952-1010 | a lost run is journaled by its phase: lost, as prepared, or stopped |
| Writes.CommitStartWrites | agent/delegate_tree_start.go:737-876 | a commit journals nothing, or opens exactly its run |
| Writes.CompleteDeliveryWrites | agent/delegate_delivery.go:343-410 | only a committed completion journals, and it pops exactly its own head |
| Writes.CompleteStopWrites | agent/delegate_tree_restore.go:338-415 | a completion is journaled only with everything tracked drained, no member's wake noted and no member open |
| Lanes.BeginHandoffLane | agent/delegate_lane_handoff.go:37-96 | an acquired handoff has nothing running, starting, being created or restored beneath it, and no handoff above or below |
| Lanes.ReservingLane | agent/delegate_tree_start.go:109-186 | no reservation is taken beneath a held handoff |
| Lanes.CommitStartLane | agent/delegate_tree_start.go:737-876 | no run opens and no delegate is created beneath a held handoff, as the tree grows |
| Lanes.RestoreLane | agent/delegate_lane_handoff.go:141-165 | no restore window opens beneath a held handoff |
| Lanes.StepKeepsLane | agent/delegate_lane_handoff.go:37-165 | every step keeps handoff exclusion and the antichain of held roots |
| Exclusive.PlanDeliveryKeeps | agent/delegate_delivery.go:707-813 | a plan, head or carrier, claims only what nobody holds, and takes over a held head whole |
| Exclusive.AdmitKeeps | agent/delegate_delivery.go:271-304 | claims become receipts one for one across a carried batch |
| Exclusive.RefusedKeeps | agent/delegate_delivery.go:208-226 | a refused carrier gives the held head back and drops its own claim |
| Exclusive.DecideKeeps | agent/delegate_delivery.go:230-307 | admission and every kind of refusal keep deliveries exclusive |
| Exclusive.CompleteDeliveryKeeps | agent/delegate_delivery.go:343-410 | acknowledging, abandoning a held head and failing to acknowledge keep deliveries exclusive |
| Exclusive.AbandonKeeps | agent/delegate_delivery.go:327-360 | a held head goes back to the claim that held it only while nothing else holds it |
| Exclusive.HoldKeeps | agent/delegate_delivery.go:917-923 | holding any claim that answers no waiter, a carrier's too, keeps deliveries exclusive |
| Carriers.HeldCarrierWasRefused | agent/delegate_delivery.go:262-276 | a held carrier is one whose owner's attention start refused it and whose waiter was given up |
| Carriers.OvertakenWasHeld | agent/delegate_delivery.go:791-813 | a carrier takes over from another only if that one was refused and held |
| Waiters.RestoreSpares | agent/delegate_delivery.go:327-333 | giving a held delivery back never takes a claim from a parcel that answers a waiter |
| Carriers.StepKeepsCarry | agent/delegate_delivery.go:707-813 | every step keeps what is true of parcels: each claim its parcel's own or its head, a carrier minted with a waiter over an older held parcel, one waiter per report |
| Exclusive.DropKeeps | agent/delegate_delivery.go:1091-1099 | dropping a claim keeps deliveries exclusive |
| Waiters.RegisterWaiters | agent/delegate_delivery.go:151-170 | a waiter starts at its reservation |
| Waiters.CommitWaiters | agent/delegate_tree_start.go:737-876 | a commit registers the reservation's waiter, a refusal discards it |
| Waiters.PlanWaiters | agent/delegate_delivery.go:1340-1351 | a plan moves its generation's waiter from registered to claimed |
| Waiters.BeginWaiters | agent/delegate_delivery.go:200-307 | whatever an admission decides, a waiter whose claim goes passes to the executor |
| Waiters.DropWaiters | agent/delegate_delivery.go:1091-1099 | dropping a claim answers its waiter |
| Waiters.WithdrawWaiters | agent/delegate_delivery.go:172-198 | only a registered waiter is withdrawn |
| Waiters.DropStoppedWaiters | agent/delegate_delivery.go:1359-1367 | a stopped start takes its registered waiter back |
| Waiters.StopSubtreeWaiters | agent/delegate_tree_stop.go:366-384 | every waiter of a claim a stop deletes goes to its cancel plan |
| Waiters.StepMovesWaiters | agent/delegate_delivery.go:151-198 | every step keeps each waiter in exactly one place and moves it only forward |
| Reclaim.ArmedClaimFits | agent/delegate_tree_reclaim.go:68-183 | once a selection is armed, unsettled resident terminal runtimes plus the required slots fit the limit |
| Reclaim.ShortfallMeansAll | agent/delegate_tree_reclaim.go:162-174 | when all candidate roots together fall short nothing can be selected |
| Reclaim.RootsHoldAll | agent/delegate_tree_reclaim.go:119-148 | the roots' entries include every claimable subtree's |
| Reclaim.EntriesDoNotOverlap | agent/delegate_tree_reclaim.go:119-148 | unrelated roots share no entry |
| Reclaim.ArmKeeps | agent/delegate_tree_reclaim.go:245-254 | arming a claim keeps marks and claims in one-to-one agreement, with unrelated roots above its entries |
| Reclaim.ReleaseKeeps | agent/delegate_tree_reclaim.go:229-237 | releasing a claim gives back exactly its own marks |
| Reclaim.GrownRecl | agent/delegate_tree_reclaim.go:245-254 | a growing tree keeps a claim's roots unrelated |
| Selecting.CountUnsettled | agent/delegate_tree_reclaim.go:87-99 | counts resident terminal runtimes no claim is settling |
| Selecting.Claimable | agent/delegate_tree_reclaim.go:269-306 | a subtree is claimable exactly when it holds no process work and every member is quiet; its entries are the resident members |
| Selecting.CandidateRoots | agent/delegate_tree_reclaim.go:101-148 | exactly the candidates with no candidate above them |
| Selecting.SpendingOrder | agent/delegate_tree_reclaim.go:149-160 | every root once, closed first, then acknowledged, then longest ended, then by id |
| Selecting.ShortestPrefix | agent/delegate_tree_reclaim.go:162-174 | the shortest prefix that suffices, or all roots fall short |
| Selecting.SelectReclamation | agent/delegate_tree_reclaim.go:68-183 | nothing when the runtimes fit, an error if and only if all claimable subtrees fall short, otherwise the selection |
| Selecting.SelectionExactly | agent/delegate_tree_reclaim.go:149-183 | the roots claimed are exactly the least choice in spending order that makes the room required: every other sufficient choice in order contains them |
| Safety.StepKeepsInv | agent/delegate_tree_controller.go:60-115 | each of the controller's steps keeps the whole invariant |
| Safety.RunKeepsInv | agent/delegate_tree_controller.go:394-427 | every state of every run, with any appends failing and any restarts, satisfies the invariant |
| RunTheorems.StopCompletesQuiescent | agent/delegate_tree_restore.go:252-432 | in every run, when a completed stop is journaled each member has no open run, binding, reservation, work, wake, watch or delivery receipt, delivery claim, or quiet, steering, model or settlement claim, and the members are the subtree at the request |
| RunTheorems.OnlyCompletionCompletes | agent/delegate_tree_restore.go:389-401 | no other step journals a completion |
| RunTheorems.TrackingIsExact | agent/delegate_tree_stop.go:229-396 | in every reachable state each set a pending stop waits for equals the live entries touching its members |
| RunTheorems.OnlyLateCreationsEscape | agent/delegate_tree_start.go:757-776 | in every reachable state whose stop covers everything beneath its target, a step leaves something outside if and only if it is the commit of a creation under a member that nothing refuses and the store takes |
| FailingRuns.CreationEscapesStop | agent/delegate_tree_controller.go:1061-1067 | a run of the machine after which a child, reserved before its parent was stopped, runs unmarked beneath the pending stop |
| RunTheorems.CapacityIsConserved | agent/delegate_tree_start.go:974-999 | in every reachable state each counter equals the reservations and bindings of its kind, within its limit |
| RunTheorems.ReleaseNeverSaturates | agent/delegate_tree_start.go:989-999 | whoever gives a slot back finds its counter above zero |
| RunTheorems.OneFinishAndStopWins | agent/delegate_tree_intents.go:513-662 | in every run no generation is finished twice and a finish of a stopping run carries the stopped outcome and reason |
| RunTheorems.NoRunIsOrphaned | agent/delegate_tree_restore.go:952-1025 | in every run an open run is bound to its own lease or still waits to be ended as lost |
| RunTheorems.DeliveriesAreExclusive | agent/delegate_delivery.go:200-410 | in every reachable state a delivery has one receipt at most, and none beside a claim, unless a carrier took over from a refused and held one |
| Takeover.TakeoverBreaksExclusivity | agent/delegate_delivery.go:791-813 | once a carrier in flight is taken over, delivering it leaves a delivery with two holders if and only if neither a stop nor its owner's attention start refuses it |
| Takeover.RestingRunsAreExclusive | agent/delegate_delivery.go:1101-1111 | in every run whose holds find their owner not starting on an attention, no carrier is refused or held, and deliveries are exclusive |
| FailingRuns.HeldCarrierBreaksExclusivity | agent/delegate_delivery.go:917-923 | a run of the machine that holds a refused carrier and ends with a delivery claimed and received at once |
| RunTheorems.DeliveriesKeepOrder | agent/delegate_delivery.go:343-410 | in every run what was acknowledged, dropped and queued is what was posted, in order and once, and the acknowledged are a prefix exactly while none follows a stop that covered the owner of a nonempty queue |
| RunTheorems.WaitersOnlyMoveForward | agent/delegate_delivery.go:1340-1376 | within a process a resolved or withdrawn waiter stays so over any run, and none returns to an earlier place |
| RunTheorems.ClaimedWaiterHasItsClaim | agent/delegate_delivery.go:1087-1099 | in every reachable state a claimed waiter's claim exists and names it |
| RunTheorems.HandoffsExclude | agent/delegate_lane_handoff.go:37-155 | in every reachable state nothing beneath a held handoff runs, starts, is created or restored, and held roots are unrelated |
| RunTheorems.ClaimsNeverOverlap | agent/delegate_tree_reclaim.go:229-254 | in every reachable state live claims are disjoint and each one's roots unrelated |
| RunTheorems.GrantedClaimFits | agent/delegate_tree_reclaim.go:68-183 | a granted capacity claim makes the required runtimes fit |
| RunSteps.SpoiledNeverEndsWithoutAction | agent/delegate_tree_intents.go:427-532 | once a generation owes a report, showed a terminal or lost its binding, no run journals a no-action finish for it |
| RunSteps.NoActionIsWarranted | agent/delegate_tree_intents.go:483-506 | any step that journals a no-action finish finishes a claim of that generation: attention-triggered, bound, with a known nil run error, a fallback, and nothing shown that owes a report |
| RunSteps.EveryNoActionWasWarranted | agent/delegate_tree_intents.go:427-532 | in every run every no-action finish in the journal was so warranted when it was journaled |
| RunSteps.WorkSpoils | agent/delegate_tree_intents.go:766-809 | report-requiring work and a seen terminal each rule the no-action finish out |
| RunSteps.BoundSteerSpoils | agent/delegate_tree_steer.go:262-269 | binding a steer rules the no-action finish out |
| RunSteps.OwnerInputSpoils | agent/delegate_tree_start.go:836-846 | a generation the owner started can never end without a report |
| RunSteps.SteersAreConserved | agent/delegate_tree_steer.go:118-280 | a steer leaves in a step only when a completed request that claimed it was made over a history holding its turn, or, not carried, with its generation |
| RunSteps.SteersAreConservedInRuns | agent/delegate_tree_steer.go:118-280 | in every reachable state a steer not carried belongs to the generation its delegate is bound to; over every continuation, restarts included, it waits for that generation until a request of it, over a history holding the steer's turn, binds it, or that generation is released or lost |
| RunSteps.CarriedSteersSurvive | agent/delegate_tree_start.go:892-898 | a carried steer survives any run that does not consume it |
| Outcomes.RunningFinishReports | agent/delegate_tree_intents.go:564-614 | a running generation's finish records the outcome it reports and queues exactly its packet behind everything queued; a completion without a packet is recorded and reported as a missing terminal |
| Outcomes.StoppedFinishReports | agent/delegate_tree_intents.go:626-662 | a stopping run is recorded stopped by its parent whatever it says; an owner outside the stop gets the packet, one inside gets nothing |
| Outcomes.FinishReleases | agent/delegate_tree_start.go:878-914 | a landed finish appends exactly its batch, unbinds the run, drops its settlement claims and gives back one slot of its own kind |
| Outcomes.CommitOpens | agent/delegate_tree_start.go:824-876 | a landed commit turns its reservation into one open, bound lease that owes a report unless attention started it, and moves no other lease |
| Outcomes.SteerIsAdmitted | agent/delegate_tree_steer.go:118-181 | a durable steer joins the end of its running generation's line; one a stop fenced is carried; any other is dropped |
| Outcomes.RequestClaimsAll | agent/delegate_tree_steer.go:195-225 | a model request claims every admitted steer, in order |
| Outcomes.RequestTakesExactly | agent/delegate_tree_steer.go:227-280 | a completed request takes out exactly the claimed steers its history holds, and owes a report once it took one |
| Outcomes.UpdateIsQueued | agent/delegate_delivery.go:420-462 | a posted update goes to the end of the queue, named by its journal sequence and addressed to the parent |
| Outcomes.PlanClaimsQueuePrefix | agent/delegate_delivery.go:707-813 | a plan claims its delivery together with exactly what the queue holds ahead of it, taking over the held claim |
| Outcomes.AcknowledgementLands | agent/delegate_delivery.go:343-410 | a landed acknowledgement pops its own head, drops its receipt, and leaves the owner's wake unless the reply was inline |
| FoldOutcomes.CreationAccepted | agent/internal/delegatestore/fold.go:301-323 | a creation is accepted exactly for a new id under a known parent, and adds one record at rest |
| FoldOutcomes.StartAccepted | agent/internal/delegatestore/fold.go:325-361 | a run opens only from rest, resumable, unmarked and at the next generation |
| FoldOutcomes.PreparationAccepted | agent/internal/delegatestore/fold.go:363-377 | only the open, running generation prepares a terminal packet |
| FoldOutcomes.StoppedFinishAccepted | agent/internal/delegatestore/fold.go:379-453 | under a stop a finish is recorded stopped whatever it says, and its owner is told unless the same stop covers it |
| FoldOutcomes.OrdinaryFinishAccepted | agent/internal/delegatestore/fold.go:379-453 | an ordinary finish needs a packet of the kind its disposition names, or for a no-action an attention run that prepared nothing; it queues that packet last |
| FoldOutcomes.FinishNeedsARun | agent/internal/delegatestore/fold.go:379-453 | no finish is accepted but of the open generation, in a running, settling or stopping phase, with a consistent outcome |
| FoldOutcomes.OutcomesExactly | agent/internal/delegatestore/fold.go:379-453 | exhaustion is recorded exactly with an exhausted outcome, its budget fixing reason and resumability |
| FoldOutcomes.ClosureAccepted | agent/internal/delegatestore/fold.go:455-477 | a delegate is closed once; an idle one at once, a running one when its run ends |
| FoldOutcomes.AcknowledgementAccepted | agent/internal/delegatestore/fold.go:560-574 | only the head of a queue is acknowledged, and it is popped |
| FoldOutcomes.UpdateAccepted | agent/internal/delegatestore/fold.go:576-608 | an update of the open, running generation joins the end of its queue under its own sequence |
| FoldOutcomes.StopAccepted | agent/internal/delegatestore/fold.go:479-507 | a stop is accepted for a known target while nothing is marked, marks the subtree and stops whatever is not closed |
| FoldOutcomes.CompletionAccepted | agent/internal/delegatestore/fold.go:509-558 | a completion is accepted over its own marks once no marked run is open; phases return to rest and covered owners lose their queues |
| StartOutcomes.AdmissionIsExact | agent/delegate_tree_controller.go:1030-1051 | a lease takes new work exactly while it is current, running, ready, out of recovery and beneath no fence |
| StartOutcomes.ControlIsExact | agent/delegate_tree_controller.go:434-455 | the root controls the delegates at the root; any other answers to its parent's current run, and to nobody without one |
| StartOutcomes.WaiterTaken | agent/delegate_delivery.go:151-170 | a reservation takes one waiter, once, while the tree is open |
| StartOutcomes.CreationReserved | agent/delegate_tree_start.go:109-186 | a creation is reserved exactly for an admitted actor or the root, for an unused id, beneath no handoff, while a turn is free |
| StartOutcomes.StartReserved | agent/delegate_tree_start.go:608-679 | a restart is reserved exactly by its controller for an idle, resumable, unfenced delegate nobody is starting |
| StartOutcomes.AttentionStartReserved | agent/delegate_tree_start.go:191-235 | an attention start needs this very runtime resident, nothing being delivered, no fence above and a free drive |
| StartOutcomes.OwedReserved | agent/delegate_tree_start.go:316-341 | an owed start is reserved only for the next generation, with no stop pending |
| StartOutcomes.ReservationGivenBack | agent/delegate_tree_start.go:681-729 | a reservation given back returns its slot, leaves its stop, and its waiter is discarded |
| StartOutcomes.CommitCases | agent/delegate_tree_start.go:737-876 | a commit lands, or gives its reservation back, or keeps an attention start the store did not take |
| StartOutcomes.CommitRefusedExactly | agent/delegate_tree_start.go:745-790 | the exact reasons a commit is refused before the append |
| StartOutcomes.CommitOpensRun | agent/delegate_tree_start.go:824-876 | a landed commit opens exactly its run: ready only when attention started it, its runtime resident and bound, its waiter registered; an attention start leaves exactly the wakes still pending, any other start and any other delegate keep theirs |
| StartOutcomes.RuntimeAttached | agent/delegate_tree_start.go:386-413 | a runtime nobody else has is attached to a running, unstopped run that awaits it, and changes nothing else |
| StartOutcomes.IdleRuntimeAttached | agent/delegate_tree_attention.go:1011-1029 | a runtime nobody else has is attached to an idle, resumable, unmarked delegate without one |
| StartOutcomes.InputBegun | agent/delegate_tree_start.go:431-447 | one input claim at a time for a run its owner started that has a runtime and is not ready |
| StartOutcomes.InputCompleted | agent/delegate_tree_start.go:449-497 | a committed input readies its run, an uncommitted one ends it as failed, a stop ends it as stopped; the claim goes in each case |
| StartOutcomes.InputTakenUp | agent/delegate_tree_start.go:449-497 | giving the input claim back touches nothing else of the run |
| StartOutcomes.StartFailureSays | agent/delegate_tree_start.go:923-972 | a failed start journals its own packet or one of its reason, its own outcome or a failure, and its own time if it has one |
| StartOutcomes.CommittedFailed | agent/delegate_tree_start.go:499-606 | a committed start that cannot be built is failed and, for a creation, closed; a stop ends it as stopped and gives its runtime up for closing |
| FinishOutcomes.ReleaseLeaves | agent/delegate_tree_start.go:878-914 | everything the run held goes together and nobody else's: claims, tracking, binding, input and one slot of its kind |
| FinishOutcomes.CarriedInOrder | agent/delegate_tree_start.go:892-898 | carried steers outlive the generation in the order they were admitted |
| FinishOutcomes.RefusedFinishLatches | agent/delegate_tree_intents.go:167-215 | a finish the store refuses changes nothing but the latch it asked for |
| FinishOutcomes.LandedFinishReleases | agent/delegate_tree_intents.go:167-236 | a finish the store takes journals its batch and releases the run |
| FinishOutcomes.RunningFinishSays | agent/delegate_tree_intents.go:564-614 | what a run's own finish journals: its packet or one of its reason, a completion without a packet being a missing terminal |
| FinishOutcomes.NoActionSays | agent/delegate_tree_intents.go:483-532 | a no-action finish journals one event without a packet or a delivery |
| FinishOutcomes.StoppedFinishSays | agent/delegate_tree_intents.go:626-646 | a stop's finish says stopped by the parent whatever the run said, and keeps what it reported as an error |
| FinishOutcomes.LostRunSays | agent/delegate_tree_restore.go:952-1010 | a lost run ends as lost, as its prepared packet, or as stopped, by the phase it was lost in |
| FinishOutcomes.RecoveryRequired | agent/delegate_tree_intents.go:720-741 | recovery is required of exactly the claim's own run, and nothing else changes |
| FinishOutcomes.FinishCases | agent/delegate_tree_intents.go:513-614 | a run ends by its phase; it waits for quiet writes, and an unauthorized no-action or a latched recovery ends nothing |
| FinishOutcomes.ExhaustionCloses | agent/delegate_tree_finish.go:398-430 | an exhaustion that cannot be resumed from closes the delegate in the same batch, and nothing else does |
| FinishOutcomes.FinalizationBegun | agent/delegate_tree_intents.go:275-343 | one finalization at a time; an ordinary one waits for every steer, admitted or being written |
| FinishOutcomes.PromotionIsExact | agent/delegate_tree_intents.go:242-272 | a stop promotes exactly the finalizations of runs it tracks that are ready and out of recovery |
| FinishOutcomes.SettlementPrepares | agent/delegate_tree_intents.go:360-396 | a settlement that lands prepares exactly the packet supplied, or the missing-terminal packet exactly when none was, and its claim goes |
| FinishOutcomes.SettledFinishReports | agent/delegate_tree_intents.go:564-614 | a settled run's finish queues the packet it prepared behind everything queued |
| FinishOutcomes.SettledPacketReachesOwner | agent/delegate_tree_intents.go:360-614 | from settlement to finish: the owner is sent exactly the packet the run supplied, or that its terminal is missing |
| FinishOutcomes.FallbackRetained | agent/delegate_tree_intents.go:455-481 | a fallback is kept exactly for a claim that may still end without action |
| FinishOutcomes.EligibilityIsExact | agent/delegate_tree_intents.go:427-453 | everything an attention run that ends without action has shown |
| FinishOutcomes.NoActionFinishes | agent/delegate_tree_intents.go:483-506 | the no-action finish consumes the attention at its fallback's time; under a stop the fallback itself is finished |
| FinishOutcomes.RunnerQuiesced | agent/delegate_tree_intents.go:743-764 | only the runner's own runtime reports that it is done |
| FinishOutcomes.EvidenceRecorded | agent/delegate_tree_intents.go:766-811 | report work and a seen terminal are recorded whatever came before; a no-action only while neither was |
| ClaimOutcomes.SteerBegun | agent/delegate_tree_steer.go:83-116 | a steer is taken from its delegate's controller for an admitted, unsettled run with a runtime, under a fresh entry |
| ClaimOutcomes.SteerCompletes | agent/delegate_tree_steer.go:118-181 | a completed steer's claim goes, and no other live state than its own delegate's line changes |
| ClaimOutcomes.SteerAborted | agent/delegate_tree_steer.go:183-193 | an aborted steer leaves its table and the stop, and nothing else moves |
| ClaimOutcomes.RequestBegun | agent/delegate_tree_steer.go:195-225 | one request at a time, of an admitted, unsettled run with a runtime |
| ClaimOutcomes.RequestAborted | agent/delegate_tree_steer.go:282-292 | an aborted request leaves its table and the stop and binds nothing |
| ClaimOutcomes.RequestCompletes | agent/delegate_tree_steer.go:227-280 | a stale request binds nothing; a current one changes only the steers it bound and the report it owes |
| ClaimOutcomes.UnboundInOrder | agent/delegate_tree_steer.go:227-280 | what a request does not bind keeps its order |
| ClaimOutcomes.WorkBegun | agent/delegate_tree_work.go:19-38 | work is begun exactly for an admitted lease, under a fresh token, uncommitted |
| ClaimOutcomes.WorkCommitted | agent/delegate_tree_work.go:40-65 | uncommitted work is committed once and a stop over its owner takes it up; no other job changes |
| ClaimOutcomes.WorkEnds | agent/delegate_tree_work.go:67-93 | only uncommitted work is aborted and only committed work finishes |
| ClaimOutcomes.QuietBegun | agent/delegate_quiet_watch.go:257-335 | one notice at a time of an admitted, unsettled run, which names it until it completes |
| ClaimOutcomes.QuietCompleted | agent/delegate_quiet_watch.go:337-370 | a completed notice leaves its table and the stop, and frees exactly the run that names it |
| ClaimOutcomes.EnqueueBegun | agent/delegate_tree_watch.go:80-103 | a watch names its source's present generation, open unless terminal sources are allowed, and a known receiver |
| ClaimOutcomes.WatchAcquired | agent/delegate_tree_watch.go:146-177 | an update is acquired once |
| ClaimOutcomes.EnqueueCompleted | agent/delegate_tree_watch.go:105-126 | a landed enqueue becomes the receipt of the same watch, tracked by the stop that covers it |
| ClaimOutcomes.WatchEnds | agent/delegate_tree_watch.go:128-196 | an aborted enqueue and a completed watch each leave their own table and the stop only |
| DeliverOutcomes.StoppedExactly | agent/delegate_delivery.go:311-319 | a delivery is refused for good exactly when the tree closes or a stop covers sender or owner |
| DeliverOutcomes.ReceiversExactly | agent/delegate_delivery.go:815-863 | the root and a resident owner receive warm, an idle one cold; delivery work for an owner is a claim or a receipt addressed to it, a claim its own start refused not holding that start back |
| DeliverOutcomes.UpdatePostedExactly | agent/delegate_delivery.go:420-462 | an update is taken exactly from an admitted run nobody is settling, when the store takes it |
| DeliverOutcomes.PlannableExactly | agent/delegate_delivery.go:707-790 | what may be planned: the head, or a report behind a held head that answers a waiter |
| DeliverOutcomes.PlanLeaves | agent/delegate_delivery.go:707-813 | the claims, the parcel and the waiter a plan leaves, and nothing else |
| DeliverOutcomes.DeliveryBegun | agent/delegate_delivery.go:200-307 | a retry takes its receipt up again and touches nothing else; any other plan is decided and its waiter passes to its executor |
| DeliverOutcomes.RetriesExactly | agent/delegate_delivery.go:230-241 | which plan takes an admitted delivery up again |
| DeliverOutcomes.CurrentExactly | agent/delegate_delivery.go:242-259 | a plan is current exactly while its claim and the queue still match it |
| DeliverOutcomes.DecisionIs | agent/delegate_delivery.go:230-307 | a stale or received plan is refused, a stopped one loses its claim, one whose owner is starting is given up, any other is admitted |
| DeliverOutcomes.RestoreGivesBack | agent/delegate_delivery.go:327-333 | a held delivery goes back exactly while it is the head and nothing stops it for good |
| DeliverOutcomes.RefusalGivesUp | agent/delegate_delivery.go:208-226 | a refused carrier gives up both claims, and the head it still claims goes back to its holder |
| DeliverOutcomes.AdmissionReceives | agent/delegate_delivery.go:271-304 | admission turns a plan's claims into one receipt per delivery of the batch, in order, and nothing else |
| DeliverOutcomes.DeliveryAbandoned | agent/delegate_delivery.go:343-360 | an abandoned delivery loses its receipt, a taken-over head goes back unless it is claimed again, and nobody is woken |
| DeliverOutcomes.StaleDeliveryDropped | agent/delegate_delivery.go:357-364 | a delivery that is not the head loses its receipt and nothing else happens |
| DeliverOutcomes.DeliveryAcknowledgedExactly | agent/delegate_delivery.go:343-410 | a landed acknowledgement pops the head and drops the receipt; a notified owner owes the wake besides those it owed, an inline reply and every other delegate owe what they owed |
| DeliverOutcomes.RefusedAcknowledgementStays | agent/delegate_delivery.go:385-396 | a refused acknowledgement changes nothing but that its receipt is to be retried |
| DeliverOutcomes.RefusedAcknowledgementIsRetried | agent/delegate_delivery.go:230-241 | the same plan without its waiter then takes the receipt up again |
| DeliverOutcomes.LeftForRetry | agent/delegate_delivery.go:689-698 | a delivery left for a retry keeps its receipt, to be retried |
| DeliverOutcomes.ClaimHeld | agent/delegate_delivery.go:917-923 | a claim that is still the plan's and answers no waiter is held; nothing else of any parcel changes |
| DeliverOutcomes.ClaimDropped | agent/delegate_delivery.go:1091-1099 | a dropped claim answers its waiter; the head a carrier claimed besides stays claimed |
| DeliverOutcomes.WaiterWithdrawn | agent/delegate_delivery.go:172-198 | a waiter withdraws exactly while it is registered |
| DeliverOutcomes.StoppedWaiterTakenBack | agent/delegate_delivery.go:1359-1367 | a pending stop over a start takes exactly that generation's waiter back |
| DeliverOutcomes.WaiterAnswered | agent/delegate_delivery.go:1369-1376 | a waiter handed to an executor is answered once |
| StopOutcomes.StopRequestedExactly | agent/delegate_tree_stop.go:229-396 | who may stop what and when; the stop tracks exactly what touches the subtree |
| StopOutcomes.StopCancelsClaims | agent/delegate_tree_stop.go:360-384 | every claim that touches the subtree goes and its waiter passes to the cancel plan |
| StopOutcomes.RecoveryIs | agent/delegate_tree_restore.go:434-488 | the stop itself finishes exactly a tracked run of its own in recovery whose runner is gone |
| StopOutcomes.RecoveryEnds | agent/delegate_tree_restore.go:434-488 | such a finish fails only if the store refuses: the run is over, unbound and no longer tracked |
| StopOutcomes.CompletionIs | agent/delegate_tree_restore.go:338-415 | a stop completes exactly when nothing is left to wait for, no member owes a wake, the evidence is clean and the store takes it |
| StopOutcomes.RestartForgets | agent/delegate_tree_controller.go:310-388 | a new process knows the journal, the runs it lost, the wakes still pending and the children; every table is empty |
| StopOutcomes.RestoredIs | agent/delegate_tree_restore.go:1027-1084 | the restored stop is the one its marks name, tracking nothing |
| StopOutcomes.LossIs | agent/delegate_tree_restore.go:952-1010 | a lost run ends by its phase unless a runtime came back for it; a refusal leaves it lost |
| StopOutcomes.LossForgotten | agent/delegate_tree_restore.go:952-964 | exactly a lost run that is over is forgotten |
| StopOutcomes.ClosureIs | agent/delegate_tree_stop.go:579-623 | a delegate is closed for good exactly by its controller while the tree is open, or when idle without its restore inputs |
| StopOutcomes.WakeNoted | agent/delegate_tree_attention.go:272-343 | a noted wake is owed besides those already owed, unless an attention start of the delegate is under way; no other delegate's change |
| StopOutcomes.WakeForgotten | agent/delegate_tree_attention.go:465-476 | exactly the resolved wake is forgotten |
| FenceOutcomes.HandoffBegun | agent/delegate_lane_handoff.go:37-96 | a handoff is taken exactly over a subtree at rest that no other handoff touches, above or below |
| FenceOutcomes.HandoffEnded | agent/delegate_lane_handoff.go:100-109 | an ended handoff frees its own root only |
| FenceOutcomes.WindowsNest | agent/delegate_lane_handoff.go:141-165 | restore windows and holds nest: each taken one is given back once |
| FenceOutcomes.ArmTakes | agent/delegate_tree_reclaim.go:245-254 | a claim takes exactly the resident runtimes beneath its roots, under a fresh token, and marks them |
| FenceOutcomes.ClaimsTaken | agent/delegate_tree_reclaim.go:68-183 | room is claimed exactly while the tree is open and room is wanting; an idle runtime is released exactly for an unheld candidate that shares no task store |
| FenceOutcomes.ReclamationEvicts | agent/delegate_tree_reclaim.go:185-210 | completion clears a runtime exactly when it was an entry of the claim, was closed under the runtime claimed, is unbound and still installed; every other runtime stays |
| FenceOutcomes.ReclamationAborted | agent/delegate_tree_reclaim.go:212-237 | an aborted claim gives back its own marks and touches no runtime |
| FenceOutcomes.FullCloseKeepsBound | agent/delegate_tree_reclaim.go:185-210 | after a full close of an undisturbed claim its runtimes are gone and what is resident and unsettled is what it was |
| FenceOutcomes.ClosedClaimLeavesRoom | agent/delegate_tree_reclaim.go:68-210 | a granted claim fully closed leaves room for the required runtimes |
| FenceOutcomes.QuietExactly | agent/delegate_tree_reclaim.go:269-306 | a member is claimable when ended, unbound, unheld, out of recovery, with no steer, waiter or quiet write left |
| FenceOutcomes.ResidentExactly | agent/delegate_tree_reclaim.go:256-267 | a resident terminal runtime is one of an ended, unheld, unbound delegate |
| FenceOutcomes.CandidateExactly | agent/delegate_tree_reclaim.go:256-306 | a candidate holds a runtime of its own, its whole subtree is quiet and no work touches it |
| FenceOutcomes.WorkFreeExactly | agent/delegate_tree_reclaim.go:323-405 | no process work exactly when nothing in any table touches a member |
| Reconciling.LostRunLands | agent/delegate_tree_restore.go:952-1010 | a lost run can be ended if and only if its prepared end does not close a delegate that is closed already |
| Reconciling.StuckRunHappens | agent/delegate_tree_finish.go:398-430 | a journal of four events leaves a run that cannot be ended |
| Reconciling.CompletesExactly | agent/delegate_tree_restore.go:252-432 | with the store answering, nothing to recover and no lost run, a reconciliation completes the stop if and only if every generation ended, every admission left was its own to acknowledge, no member owes a wake and the evidence is clean; every such admission is acknowledged |
| Reconciling.RetryStep | agent/delegate_tree_restore.go:504-545 | one more acknowledgement: the receipt goes, its head is popped and its owner owes exactly its wake, or the store refused and nothing changed |
| Controllers.Controller.AppendBatch | agent/delegate_tree_controller.go:394-427 | a batch lands whole with the fold's result, or nothing changes |
| Controllers.Controller.AncestorFence | agent/delegate_tree_controller.go:1068-1080 | the walk up the parents finds a refusing ancestor exactly when one exists |
| Controllers.Controller.LaneCovered | agent/delegate_lane_handoff.go:111-135 | the delegate or an ancestor roots a held handoff |
| Controllers.Controller.ReclamationCovers | agent/delegate_tree_reclaim.go:407-419 | the delegate or an ancestor is being reclaimed |
| Controllers.OneActorControls | agent/delegate_tree_controller.go:434-455 | exactly one actor controls a delegate, its parent's current run or the root, and nobody reaches a grandchild directly |
| Controllers.Controller.AdmitLease | agent/delegate_tree_controller.go:1030-1051 | a lease is admitted exactly when its run is running, ready, unfenced, unstopped, unreclaimed and not in recovery |
| Controllers.Controller.StopSubtree | agent/delegate_tree_stop.go:229-396 | the stop lands as its step, everything in flight taken into it and touched claims' waiters owed, and the invariant is kept |
| Controllers.Controller.DropMemberClaims | agent/delegate_tree_stop.go:360-384 | exactly the claims touching a member go, and exactly their claimed waiters become owed |
| Controllers.Controller.CommitStart | agent/delegate_tree_start.go:737-876 | the commit takes its step's state and keeps the invariant |
| Controllers.Controller.RefusesCommit | agent/delegate_tree_start.go:745-790 | every reason that refuses a commit before the journal is asked, and no other |
| Controllers.Controller.DeliveryWorkFor | agent/delegate_delivery.go:844-863 | whether a claim or receipt is addressed to the owner |
| Controllers.Controller.CollectLate | agent/delegate_tree_steer.go:248-264 | the steers a request must not see: pending or being written for its run, and not claimed |
| Controllers.Controller.CompleteModelRequest | agent/delegate_tree_steer.go:227-280 | the request sees the projected history; the steers it binds leave in place, the others keep their order, and binding one requires a report |
| Controllers.Controller.ReleaseRun | agent/delegate_tree_start.go:878-914 | the release takes its step's state |
| Controllers.Controller.FinishGeneration | agent/delegate_tree_intents.go:513-614 | the finish takes its step's state and keeps the invariant |
| Controllers.Controller.BeginDelivery | agent/delegate_delivery.go:200-307 | the admission takes its step's state and keeps the invariant; a plan nobody minted changes nothing |
| Controllers.Controller.CompleteDelivery | agent/delegate_delivery.go:343-410 | the completion takes its step's state and keeps the invariant |
| Controllers.Controller.FindReceipt | agent/delegate_delivery.go:869-876 | the first receipt of a delivery, if any |
| Controllers.Controller.BeginSubtreeHandoff | agent/delegate_lane_handoff.go:37-96 | the handoff takes its step's state and keeps the invariant |
| Controllers.Controller.Reconcile | agent/delegate_tree_restore.go:252-432 | whatever the store answers: one recovered run; else every lost run ended unless the store refuses or one is stuck; else what is due acknowledged, and the stop completed unless something is left to wait for, the evidence is not clean or the store refuses; completion is reported exactly when the pending stop is gone |
| Driving.DrivenIsRun | agent/delegate_tree_restore.go:252-401 | what a reconciliation does under its lock is a run of the machine |
| Controllers.Controller.LoseRuns | agent/delegate_tree_restore.go:952-1010 | afterwards every lease still lost is open and bound, or the store refused, or a lost run is stuck; only lost runs end and no other record changes |
| Controllers.Controller.RecoverOne | agent/delegate_tree_restore.go:434-488 | the first run the stop may finish, in the order of leases, is over and unbound when the store takes it; nothing changes exactly when there is none |
| Controllers.Controller.RetryAcknowledgements | agent/delegate_tree_restore.go:504-545 | in token order every retryable admission the stop waits for is acknowledged or the store refused; no other receipt changes |
| Controllers.Controller.DrainStop | agent/delegate_tree_restore.go:326-415 | once every generation ended, what is due is acknowledged and the stop completes unless something is left to wait for, the evidence is not clean or the store refuses |
| Controllers.Controller.ClaimRuntimeReclamation | agent/delegate_tree_reclaim.go:68-183 | a granted claim makes the runtimes fit, an error means all claimable subtrees fall short, and the invariant is kept |
| SteerProjection.Project | agent/delegate_tree_steer.go:341-372 | the request sees the rest of the history in order, then the claimed steers it holds in admission order, and binds exactly those |
| SteerProjection.BoundExactly | agent/delegate_tree_steer.go:341-372 | a claimed steer is bound if and only if the history holds its turn |
| SteerProjection.ProjectionConserves | agent/delegate_tree_steer.go:341-372 | every turn not excluded is seen as often as the history holds it |
| SteerProjection.TailInClaimOrder | agent/delegate_tree_steer.go:363-371 | the bound steers stand in admission order |
| WakeRotation.SelectWake | agent/delegate_tree_attention.go:706-722 | the pick is the eligible delegate picked longest ago, ties by id, and goes to the back |
| WakeRotation.SelectAttentionWake | agent/delegate_tree_attention.go:706-794 | over the controller's tables: nobody exactly when no owing delegate may be driven, else the one picked longest ago, which goes to the back |
| WakeRotation.Front | agent/delegate_tree_attention.go:768-794 | the scan finds the front of the line |
| WakeRotation.NobodyWaitsARound | agent/delegate_tree_attention.go:768-794 | over as many selections as there are owing delegates, one eligible each time is picked |
| QuietCadence.Cadence.Begin | agent/delegate_quiet_watch.go:257-335 | one claim at a time, only after a further full window of silence, with the content its identity fixes |
| QuietCadence.Cadence.Append | agent/delegate_quiet_watch.go:54-81 | an identity reaches the transcript at most once |
| QuietCadence.Cadence.Complete | agent/delegate_quiet_watch.go:337-370 | a notice commits only if nothing moved on, and the k-th wake of a silence came at least k windows after its last activity |
| QuietCadence.Cadence.ReportActivity | agent/delegate_activity_report.go:121-136 | activity restarts the silence and retires a pending or committed identity |
| QuietCadence.Cadence.Steer | agent/delegate_tree_steer.go:168-175 | a steer at or after the last activity restarts the silence |
| QuietCadence.Cadence.End | agent/internal/delegatestore/fold.go:363-377 | once the run settles or is stopped no notice begins and none commits |
| GraceTimers.TimersAreAccountedFor | agent/delegate_tree_reclaim.go:829-955 | under any interleaving one timer per delegate at most is installed, none spent after its callback, none once closing, and every created timer is pending, installed, handed back or fired |
| GraceTimers.StepOnlyNewer | agent/delegate_tree_reclaim.go:894-913 | while occupied a delegate's place passes only to a newer generation or a newer arm |
| GraceTimers.InstallIsExact | agent/delegate_tree_reclaim.go:894-913 | of an arm and the installed timer the winner is installed and the loser handed back; no other timer changes |
| GraceTimers.TimerTable.Swap | agent/delegate_tree_reclaim.go:894-913 | installs or hands back as its step says, and returns exactly the timer this call put into the caller's hands |
| GraceTimers.TimerTable.NextArm | agent/delegate_tree_reclaim.go:918-926 | each arm gets an identity of its own |
| GraceTimers.TimerTable.RetireFired | agent/delegate_tree_reclaim.go:932-941 | a fired callback drops exactly its own entry |
| GraceTimers.TimerTable.TakeAll | agent/delegate_tree_reclaim.go:948-955 | the sweep hands back everything installed and leaves nothing |
| HistoryRepair.Repair | agent/history_repair.go:33-115 | the pass returns the repaired history and where it inserted |
| HistoryRepair.RepairOnlyInserts | agent/history_repair.go:33-115 | without the reported insertions the result is the original history |
| HistoryRepair.EveryCallIsAnswered | agent/history_repair.go:72-98 | every call with an id has its result before the next round-breaking turn |
| HistoryRepair.RepairIsIdempotent | agent/history_repair.go:104-114 | a second pass repairs nothing |
| HistoryRepair.BaselineFollowsItsTurn | agent/history_repair.go:161-182 | the shifted baseline points at the same original turn, or past the end as before |
| HistoryRepair.ShiftBaseline | agent/history_repair.go:178-182 | the loop shifts the baseline once per insertion at or before it |
| BodyPaging.FitPage | agent/apilog_read.go:441-495 | the shrink loop ends where the shrink sequence comes to rest: a page that fits makes progress, and room is refused exactly when the sequence shrinks away, with headers and without |
| BodyPaging.RefusedExactly | agent/apilog_read.go:479-493 | for sizes that grow by at most the limit per byte, shrinking away means that not one byte fits, and the converse when one byte makes the smallest page |
| BodyPaging.NoRoomExactly | agent/apilog_read.go:441-495 | a page is refused for room if and only if a single byte fits neither with the headers inline nor without them |
| BodyPaging.StepwiseGrowth | agent/apilog_read.go:441-495 | a size that grows by at most the limit with each byte grows so over the whole page |
| BodyPaging.JumpIsRefused | agent/apilog_read.go:489-493 | a size that jumps by more than the limit is refused room though its first byte fits, so the growth condition is needed |
| BodyPaging.ReadAll | agent/apilog_read.go:327-392 | following continuations concatenates to exactly the body when every page succeeds, and they do when sizes leave room |

## Left out

- Retirement leases, the finalizing fence, evidence versions (but that a reconciliation returns once it ended a run), warnings, update plans and snapshots: they refuse or report more than the model does, and change no table it keeps.
- `NeedsAttention`, intents, descriptors, isolation, shared task stores (a parameter of the idle release) and outcome error text: the fold carries them and nothing here depends on them.
- Attention ids of a live generation (`ReportAttentionConsumed`, `ReportAttentionStabilized`): nothing in the repository fills the list they act on.
- Cancellation functions, channels, goroutines and contexts: a cancelled context is a parameter of `CommitStart`, and a waiter's resolution is the step that answers it.
- Delivery plans a finish, an acknowledgement or a completed stop makes before it unlocks: `PlanDelivery` is a step of its own, free to run next.
- `Controllers.Controller`: keeps the tables in five records rather than one field each, so updating a table in place is not told apart from replacing it.
- `Controllers.Controller.Reconcile`: takes as a parameter whether evidence outside the controller is clean; shell repairs and attention cleanup happen outside. A refused append stands for a store error and for the refusal to close a delegate while an accepted attention start is under way beneath it.
- `Controllers.Controller.LoseRuns`: lost runs are a set, ended in any order; the source goes through them in the order they started.
- HoldClaim: when a receiver is in a turn is the session's to know; the step may hold any claim whose plan answers no waiter, as the caller does.
- BeginDelivery: plans are values only the controller mints; one that matches no parcel it minted, or drops its waiter before its claim did, changes nothing in the model. Where a takeover left two receipts for one delivery, the scan meets the first.
- CarriedSteersSurvive: speaks of one process; a restart empties the admitted steers, and rebuilding them from the transcript is not part of this model.
- `WakeRotation.SelectAttentionWake`: which delegates are finalizing or parked is a parameter.
- ReserveCreate: the new id is minted by the environment and required fresh; ReserveAttention does not check that a runtime has one owner.
- WaitersOnlyMoveForward: speaks of one process; a restart forgets every waiter, as the source does.
- `GraceTimers`: the timer's delay and the release it triggers are not modelled, and `fired` is set in a step of its own before the entry is retired.
- `BodyPaging`: encoding is a size function and a lossless codec; the summary envelope and its trimming are not modelled.
- `HistoryRepair`: turns keep only what matters to tool rounds; the synthetic turn's text and the watch-send retry after a repair are not modelled.
- Worktrees, sandboxing, transcripts, job stores, delegate creation inputs, model selection, forks and the user interface.
