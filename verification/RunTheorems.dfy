/** What holds in every reachable state, and what every run preserves. */
module RunTheorems {
  import opened Types
  import opened Tree
  import opened Journal
  import opened JournalLaws
  import opened State
  import opened Fences
  import opened Machine
  import opened Effects
  import opened Invariants
  import opened Lanes
  import opened Exclusive
  import opened Carriers
  import opened Waiters
  import opened Reclaim
  import opened Safety
  import opened Finishing
  import opened Starting
  import opened Claims
  import opened Delivering
  import opened Stopping
  import opened ClaimKept
  import opened StartKept
  import opened Writes
  import opened Accounts

  // ---- Capacity ----

  /** The counters are the reservations and bindings of their kind, within their limits, whichever appends failed. */
  lemma CapacityIsConserved(limits: Limits, steps: seq<Step>)
    ensures CapInv(Run(Init(limits), steps))
  {
    RunKeepsInv(limits, steps);
    hide Run, StopAlwaysWins, JournalInv, BindInv, ResInv, SettleInv, IndexExact, TokInv, TrackInv, StopShape, InUse;
  }

  /** Whoever gives a slot back finds the counter above zero: the decrement never saturates. */
  lemma ReleaseNeverSaturates(s: State)
    requires CapInv(s)
    ensures forall t | t in s.runs.reservations :: (if s.runs.reservations[t].trigger == AttentionTrigger then s.runs.drives else s.runs.turns) > 0
    ensures forall i | LeaseAt(s.runs.live, i).Some? && i in s.store.durable ::
              (if s.store.durable[i].trigger == AttentionTrigger then s.runs.drives else s.runs.turns) > 0
  {
    forall t | t in s.runs.reservations ensures |Slots(s.runs.reservations, s.runs.reservations[t].trigger == AttentionTrigger)| > 0 {
      assert t in Slots(s.runs.reservations, s.runs.reservations[t].trigger == AttentionTrigger);
    }
    forall i | LeaseAt(s.runs.live, i).Some? && i in s.store.durable
      ensures |Bound(s.runs.live, s.store.durable, s.store.durable[i].trigger == AttentionTrigger)| > 0
    {
      assert i in Bound(s.runs.live, s.store.durable, s.store.durable[i].trigger == AttentionTrigger);
    }
  }

  // ---- Finishes ----

  ghost predicate FinishedOnce(journal: seq<Event>) {
    forall j, k | 0 <= j < k < |journal| && journal[j].RunFinished? && journal[k].RunFinished? && journal[j].id == journal[k].id ::
      journal[j].generation != journal[k].generation
  }

  /** No generation is finished twice, and a finish of a stopping run carries the stopped outcome. */
  lemma OneFinishAndStopWins(limits: Limits, steps: seq<Step>)
    ensures FinishedOnce(Run(Init(limits), steps).store.journal) && StopAlwaysWins(Run(Init(limits), steps).store.journal)
  {
    hide Run, Next, StopAlwaysWins, CoreInv, Fold, LaneInv, InHand, CarryInv, NoStoppedClaim, WaitInv, ReclInv;
    var s := Run(Init(limits), steps);
    RunKeepsInv(limits, steps);
    CoreParts(s);
    FoldedJournal(s);
    var journal := s.store.journal;
    forall j, k | 0 <= j < k < |journal| && journal[j].RunFinished? && journal[k].RunFinished? && journal[j].id == journal[k].id
      ensures journal[j].generation != journal[k].generation
    {
      OneFinishPerGeneration(journal, j, k);
    }
  }

  // ---- Deliveries ----

  /** Some carrier took its head over from another, which was held after its owner's attention start refused it. */
  predicate TakenOver(parcels: map<Token, Parcel>) {
    exists t | t in parcels :: parcels[t].carried != [] && parcels[t].held && parcels[t].refused && Overtaken(parcels)
  }

  ghost predicate ExclusiveUnlessTakenOver(s: State) {
    OneHolder(s.post.claims, s.post.receipts) || TakenOver(s.post.parcels)
  }

  /** At every moment of every run a delivery has at most one receipt, and none while it is claimed, unless a carrier took over
      from a carrier that was refused and held. */
  lemma DeliveriesAreExclusive(limits: Limits, steps: seq<Step>)
    ensures ExclusiveUnlessTakenOver(Run(Init(limits), steps))
  {
    RunKeepsInv(limits, steps);
    hide Run, Next, StopAlwaysWins, CoreInv, LaneInv, CarryInv, Overtaken, NoStoppedClaim, WaitInv, ReclInv, OneHolder, CarriersOk, KeysOk, ParcelsOk, HeldOk, OwnersOk;
    var s := Run(Init(limits), steps);
    if Overtaken(s.post.parcels) { OvertakenWasHeld(s.post, s.runs.live, s.store.durable); }
  }

  ghost predicate InPostingOrder(store: Store, id: Id) {
    && Fold(store.journal) == Some(store.durable) && Distinct(PostedIn(store.journal, id))
    && PostedIn(store.journal, id) == SettledDids(SettledIn(store.journal, id)) + Dids(QueueOf(store.durable, id))
    && (Acknowledged(SettledIn(store.journal, id)) <= PostedIn(store.journal, id) <==> !AcksAfterGap(store.journal, id))
  }

  /** What was acknowledged, dropped by stops and still queued is what was posted, in posting order and each once;
      the acknowledged ones are a prefix exactly while none follows a completed stop that covered the owner of a nonempty queue. */
  lemma DeliveriesKeepOrder(limits: Limits, steps: seq<Step>, id: Id)
    ensures InPostingOrder(Run(Init(limits), steps).store, id)
  {
    hide Run, Next, StopAlwaysWins, CoreInv, LaneInv, InHand, CarryInv, NoStoppedClaim, WaitInv, ReclInv, PostedIn, SettledIn, Acknowledged, Dids, SettledDids, QueueOf,
         AcksAfterGap;
    var s := Run(Init(limits), steps);
    RunKeepsInv(limits, steps);
    CoreParts(s);
    FoldedJournal(s);
    PostedOnce(s.store.journal, id);
    SettledThenQueuedIsPosted(s.store.journal, id);
    DeliveryOrder(s.store.journal, id);
  }

  // ---- Waiters ----

  /** A place nobody leaves. */
  predicate Resolved(w: WaiterState) {
    w.Answered? || w.Withdrawn? || w.Discarded?
  }

  predicate Resides(w: WaiterState) {
    w.Reserved? || w.Registered?
  }

  /** Where `w` is in `n`, given where it was in `s`. */
  predicate Later(s: State, n: State, w: Token) {
    w in s.post.waiters ==>
      && w in n.post.waiters
      && var was, now := s.post.waiters[w], n.post.waiters[w];
      && (Resolved(was) ==> now == was)
      && (!Resides(was) ==> !Resides(now))
      && (was.Claimed? || was.Owed? ==> now == was || now.Owed? || now.Answered?)
  }

  /** Within one process, a waiter that was answered, withdrawn or discarded stays so whatever runs;
      and one that left its reservation or registration never comes back to it. */
  lemma {:induction false} WaitersOnlyMoveForward(s: State, steps: seq<Step>, w: Token)
    requires Inv(s) && NoRestart(steps) && w in s.post.waiters
    ensures Inv(Run(s, steps)) && Later(s, Run(s, steps), w)
  {
    hide Inv, Next;
    if steps != [] {
      var init, last := steps[..|steps| - 1], steps[|steps| - 1];
      WaitersOnlyMoveForward(s, init, w);
      var mid := Run(s, init);
      StepKeepsInv(mid, last);
      StepMovesOn(mid, last, w);
    }
  }

  predicate Stepped(s: State, n: State, w: Token) {
    w in s.post.waiters ==> w in n.post.waiters && Forward(s.post.waiters[w], n.post.waiters[w])
  }

  lemma StepMovesOn(s: State, step: Step, w: Token)
    requires Inv(s) && !Restarts(step)
    ensures Stepped(s, Next(s, step), w)
  {
    hide CoreInv, LaneInv, InHand, CarryInv, NoStoppedClaim, WaitInv, ReclInv, Next, StopAlwaysWins;
    CoreParts(s);
    StepMovesWaiters(s, step);
  }

  predicate HasItsClaim(p: Post, w: Token) {
    w in p.waiters && p.waiters[w].Claimed? ==>
      var t := p.waiters[w].parcel;
      t in p.parcels && p.parcels[t].waiter == w && p.parcels[t].did in p.claims && p.claims[p.parcels[t].did] == t
  }

  /** A claimed waiter's claim is in place: no step deletes the claim and leaves the waiter behind. */
  lemma ClaimedWaiterHasItsClaim(limits: Limits, steps: seq<Step>, w: Token)
    ensures HasItsClaim(Run(Init(limits), steps).post, w)
  {
    RunKeepsInv(limits, steps);
    hide Run, Next, StopAlwaysWins, CoreInv, LaneInv, NoStoppedClaim, InHand, CarryInv, ReclInv, ReservedOk, RegisteredOk;
  }

  // ---- Runs ----

  /** An open run has its own lease, or waits among the lost to be ended. */
  ghost predicate NoneOrphaned(runs: Runs, d: Durable) {
    forall i | i in d && d[i].open :: LeaseAt(runs.live, i) == Some(Lease(i, d[i].generation)) || Lease(i, d[i].generation) in runs.lost
  }

  lemma NoRunIsOrphaned(limits: Limits, steps: seq<Step>)
    ensures NoneOrphaned(Run(Init(limits), steps).runs, Run(Init(limits), steps).store.durable)
  {
    RunKeepsInv(limits, steps);
    hide Run, Next, StopAlwaysWins, LaneInv, InHand, CarryInv, NoStoppedClaim, WaitInv, ReclInv, JournalInv, ResInv, SettleInv, IndexExact, TokInv, TrackInv,
         StopShape, CapInv, LeaseAt;
  }

  // ---- Lanes ----

  /** While a handoff is held nothing beneath it runs, starts, is being created or is being restored, and held roots never nest. */
  lemma HandoffsExclude(limits: Limits, steps: seq<Step>)
    ensures var s := Run(Init(limits), steps);
            && Antichain(s.guards.laneHandoffs, s.store.durable) && NoOpenRun(s.guards.laneHandoffs, s.store.durable)
            && NoStart(s.guards.laneHandoffs, s.runs.reservations, s.store.durable)
            && NoRestore(s.guards.laneHandoffs, s.guards.laneRestores, s.store.durable)
  {
    RunKeepsInv(limits, steps);
    hide Run, Next, StopAlwaysWins, CoreInv, InHand, CarryInv, NoStoppedClaim, WaitInv, ReclInv, Antichain, NoOpenRun, NoStart, NoRestore;
  }

  // ---- Reclamation ----

  /** Live claims never overlap, and each claim's roots are pairwise unrelated. */
  ghost predicate ClaimsApart(g: Guards, d: Durable) {
    && (forall t | t in g.reclamations :: Antichain(g.reclamations[t].roots, d))
    && (forall t, u | t in g.reclamations && u in g.reclamations && t != u :: g.reclamations[t].entries.Keys !! g.reclamations[u].entries.Keys)
  }

  /** However the tree has grown since each was armed. */
  lemma ClaimsNeverOverlap(limits: Limits, steps: seq<Step>)
    ensures ClaimsApart(Run(Init(limits), steps).guards, Run(Init(limits), steps).store.durable)
  {
    RunKeepsInv(limits, steps);
    var s := Run(Init(limits), steps);
    hide Run, Next, StopAlwaysWins, CoreInv, InHand, CarryInv, NoStoppedClaim, WaitInv, LaneInv, Antichain, MarksOk;
    forall t | t in s.guards.reclamations ensures Antichain(s.guards.reclamations[t].roots, s.store.durable) {
      assert RootsOk(s.store.durable, s.guards.reclamations[t]);
    }
    forall t, u | t in s.guards.reclamations && u in s.guards.reclamations && t != u
      ensures s.guards.reclamations[t].entries.Keys !! s.guards.reclamations[u].entries.Keys
    {
      ClaimsAreDisjoint(s.guards, s.store.durable, t, u);
    }
  }

  /** A capacity claim that is granted makes room: what nothing is settling plus the required slots fits the limit. */
  lemma GrantedClaimFits(s: State, required: nat, roots: set<Id>)
    requires ClaimReclamation(s, required, roots) != s
    ensures |Unsettled(ClaimReclamation(s, required, roots))| + required <= s.limits.retained
  {
    hide Selection, Arm, Unsettled;
    ArmedClaimFits(s, required, roots);
  }

  // ---- Stops leave their members quiescent ----

  /** Nothing of `i` is running, starting, claimed, in delivery or owed. */
  ghost predicate Quiescent(s: State, i: Id) {
    && i in s.store.durable && !s.store.durable[i].open && LeaseAt(s.runs.live, i).None?
    && (forall t | t in s.runs.reservations :: s.runs.reservations[t].id != i)
    && (forall t | t in s.tables.work :: s.tables.work[t].owner.id != i)
    && (forall t | t in s.tables.quiets :: s.tables.quiets[t].id != i)
    && (forall t | t in s.tables.steering :: s.tables.steering[t].lease.id != i)
    && (forall t | t in s.tables.models :: s.tables.models[t].lease.id != i)
    && (forall t | t in s.tables.settlements :: s.tables.settlements[t].lease.id != i)
    && (forall t | t in s.tables.enqueues :: s.tables.enqueues[t].source != i && s.tables.enqueues[t].receiver != i)
    && (forall t | t in s.tables.deliveries :: s.tables.deliveries[t].source != i && s.tables.deliveries[t].receiver != i)
    && (forall t | t in s.post.receipts :: s.post.receipts[t].delegate != i && s.post.receipts[t].owner != i)
    && (forall k | k in s.post.claims && s.post.claims[k] in s.post.parcels ::
          s.post.parcels[s.post.claims[k]].delegate != i && s.post.parcels[s.post.claims[k]].owner != i)
    && WakesOf(s, i) == {}
  }

  lemma NoRunsLeft(s: State, m: set<Id>, i: Id)
    requires i in m && ActiveIn(s.runs.live, m) == {} && StartsIn(s.runs.reservations, m) == {} && SettlementsIn(s.tables.settlements, m) == {}
    ensures LeaseAt(s.runs.live, i).None? && (forall t | t in s.runs.reservations :: s.runs.reservations[t].id != i)
    ensures forall t | t in s.tables.settlements :: s.tables.settlements[t].lease.id != i
  {
    assert forall l | LeaseAt(s.runs.live, i) == Some(l) :: l in ActiveIn(s.runs.live, m);
    assert forall t | t in s.runs.reservations && s.runs.reservations[t].id == i :: t in StartsIn(s.runs.reservations, m);
    assert forall t | t in s.tables.settlements && s.tables.settlements[t].lease.id == i :: t in SettlementsIn(s.tables.settlements, m);
  }

  lemma NoClaimsLeft(s: State, m: set<Id>, i: Id)
    requires i in m && WorkIn(s.tables.work, m) == {} && QuietsIn(s.tables.quiets, m) == {}
    requires SteeringIn(s.tables.steering, m) == {} && ModelsIn(s.tables.models, m) == {}
    ensures (forall t | t in s.tables.work :: s.tables.work[t].owner.id != i) && (forall t | t in s.tables.quiets :: s.tables.quiets[t].id != i)
    ensures forall t | t in s.tables.steering :: s.tables.steering[t].lease.id != i
    ensures forall t | t in s.tables.models :: s.tables.models[t].lease.id != i
  {
    assert forall t | t in s.tables.work && s.tables.work[t].owner.id == i :: t in WorkIn(s.tables.work, m);
    assert forall t | t in s.tables.quiets && s.tables.quiets[t].id == i :: t in QuietsIn(s.tables.quiets, m);
    assert forall t | t in s.tables.steering && s.tables.steering[t].lease.id == i :: t in SteeringIn(s.tables.steering, m);
    assert forall t | t in s.tables.models && s.tables.models[t].lease.id == i :: t in ModelsIn(s.tables.models, m);
  }

  lemma NoPostLeft(s: State, m: set<Id>, i: Id)
    requires i in m && ReceiptsIn(s.post.receipts, m) == {} && ClaimsIn(s.post.claims, s.post.parcels, m) == {}
    requires WatchesIn(s.tables.enqueues, m) == {} && WatchesIn(s.tables.deliveries, m) == {}
    ensures forall t | t in s.post.receipts :: s.post.receipts[t].delegate != i && s.post.receipts[t].owner != i
    ensures forall k | k in s.post.claims && s.post.claims[k] in s.post.parcels ::
              s.post.parcels[s.post.claims[k]].delegate != i && s.post.parcels[s.post.claims[k]].owner != i
    ensures forall t | t in s.tables.enqueues :: s.tables.enqueues[t].source != i && s.tables.enqueues[t].receiver != i
    ensures forall t | t in s.tables.deliveries :: s.tables.deliveries[t].source != i && s.tables.deliveries[t].receiver != i
  {
    forall t | t in s.post.receipts ensures s.post.receipts[t].delegate != i && s.post.receipts[t].owner != i {
      assert t !in ReceiptsIn(s.post.receipts, m);
    }
    forall k | k in s.post.claims && s.post.claims[k] in s.post.parcels
      ensures s.post.parcels[s.post.claims[k]].delegate != i && s.post.parcels[s.post.claims[k]].owner != i
    {
      assert k !in ClaimsIn(s.post.claims, s.post.parcels, m);
    }
    forall t | t in s.tables.enqueues ensures s.tables.enqueues[t].source != i && s.tables.enqueues[t].receiver != i {
      assert t !in WatchesIn(s.tables.enqueues, m);
    }
    forall t | t in s.tables.deliveries ensures s.tables.deliveries[t].source != i && s.tables.deliveries[t].receiver != i {
      assert t !in WatchesIn(s.tables.deliveries, m);
    }
  }

  lemma DrainedTables(s: State, i: Id)
    requires s.stop.Some? && TrackInv(s) && NoStoppedClaim(s.stop, s.post.claims, s.post.parcels) && Drained(s.stop.value) && i in s.stop.value.members
    requires i in s.store.durable && !s.store.durable[i].open && WakesOf(s, i) == {}
    ensures Quiescent(s, i)
  {
    hide ActiveIn, StartsIn, WorkIn, ReceiptsIn, QuietsIn, SteeringIn, ModelsIn, SettlementsIn, WatchesIn, ClaimsIn, WakesOf;
    NoRunsLeft(s, s.stop.value.members, i);
    NoClaimsLeft(s, s.stop.value.members, i);
    NoPostLeft(s, s.stop.value.members, i);
  }

  lemma EndedIsQuiescent(s: State, n: State, i: Id)
    requires Inv(s) && StopEnded(s, n) && i in s.stop.value.members
    ensures Quiescent(s, i)
  {
    hide StopAlwaysWins, JournalInv, BindInv, ResInv, SettleInv, IndexExact, TokInv, CapInv, TrackInv, NoStoppedClaim, Quiescent, Drained, SameWork, WakesOf;
    DrainedTables(s, i);
  }

  /** The step from `s` to `n` journals a completed stop as event `k`. */
  predicate Journals(s: State, n: State, k: nat) {
    |s.store.journal| <= k < |n.store.journal| && n.store.journal[k].StopCompleted?
  }

  predicate CompletesStop(step: Step) {
    step.Stops? && step.stop.DoCompleteStop?
  }

  /** Only the stop's own completion step journals a completion. */
  lemma OnlyCompletionCompletes(s: State, step: Step, k: nat)
    requires JournalInv(s.store.journal, s.store.durable)
    requires Journals(s, Next(s, step), k)
    ensures CompletesStop(step) && StopEnded(s, Next(s, step))
  {
    hide JournalInv, NextStart, NextFinish, NextClaim, NextDeliver, NextStop, NextFence, StopEnded;
    match step
    case Starts(x) => StartNever(s, x);
    case Finishes(x) => FinishNever(s, x);
    case ClaimsWork(x) => ClaimFrame(s, x);
    case Delivers(x) => DeliverNever(s, x);
    case Stops(x) => StopOnly(s, x, k);
    case FencesOff(x) => FenceFrame(s, x);
  }

  /** The journal grew without a completion. */
  ghost predicate NoCompletion(s: State, n: State) {
    s.store.journal <= n.store.journal && forall k | |s.store.journal| <= k < |n.store.journal| :: !n.store.journal[k].StopCompleted?
  }

  lemma WroteNever(s: State, n: State)
    requires Wrote(s, n)
    ensures NoCompletion(s, n)
  {
    hide StopWins;
    var batch := n.store.journal[|s.store.journal|..];
    forall k | |s.store.journal| <= k < |n.store.journal| ensures !n.store.journal[k].StopCompleted? {
      assert n.store.journal[k] == batch[k - |s.store.journal|];
    }
  }

  lemma ClosingNever(s: State, n: State, l: Lease)
    requires s.store.journal <= n.store.journal && ClosingBatch(n.store.journal[|s.store.journal|..], l)
    ensures NoCompletion(s, n)
  {
    var batch := n.store.journal[|s.store.journal|..];
    forall k | |s.store.journal| <= k < |n.store.journal| ensures !n.store.journal[k].StopCompleted? {
      assert n.store.journal[k] == batch[k - |s.store.journal|];
    }
  }

  lemma StartNever(s: State, x: StartStep)
    requires JournalInv(s.store.journal, s.store.durable)
    ensures NoCompletion(s, NextStart(s, x))
  {
    hide JournalInv, NextStart, Wrote, Calmer, QueuesGrow, NoCompletion, Committed;
    StartTame(s, x);
    WroteNever(s, NextStart(s, x));
  }

  lemma FinishNever(s: State, x: FinishStep)
    requires JournalInv(s.store.journal, s.store.durable)
    ensures NoCompletion(s, NextFinish(s, x))
  {
    hide JournalInv, Wrote, Calmer, QueuesGrow, StopWins, Lawful, ClosingBatch, FinishNoAction, FinishGeneration, BeginFinalization, CompleteSettlement,
         PrepareNoAction, RequireRecovery, ReportQuiesced, AdmitReportWork, RecordNoAction, RecordTerminalSeen;
    var n := NextFinish(s, x);
    if x.DoFinishNoAction? {
      FinishNoActionWrites(s, x.token, x.now, x.storeOk);
      if n.store != s.store { ClosingNever(s, n, s.tables.settlements[x.token].lease); }
    } else {
      FinishTame(s, x);
      WroteNever(s, n);
    }
  }

  lemma DeliverNever(s: State, x: DeliverStep)
    requires JournalInv(s.store.journal, s.store.durable)
    ensures NoCompletion(s, NextDeliver(s, x))
  {
    hide JournalInv, Wrote, Calmer, QueuesGrow, Acked, NoCompletion, PostUpdate, PlanDelivery, BeginDelivery, CompleteDelivery, LeaveForRetry, HoldClaim,
         DropClaim, WithdrawWaiter, DropStoppedWaiter, AnswerWaiter;
    if x.DoCompleteDelivery? { CompleteDeliveryWrites(s, x.token, x.committed, x.wake, x.storeOk); } else { DeliverTame(s, x); }
    WroteNever(s, NextDeliver(s, x));
  }

  lemma StopOnly(s: State, x: StopStep, k: nat)
    requires JournalInv(s.store.journal, s.store.durable)
    requires |s.store.journal| <= k < |NextStop(s, x).store.journal| && NextStop(s, x).store.journal[k].StopCompleted?
    ensures x.DoCompleteStop? && StopEnded(s, NextStop(s, x))
  {
    hide JournalInv, Wrote, Calmer, QueuesGrow, StopEnded, Requested, StopSubtree, RecoverStopped, CompleteStop, Restart, LoseRuntime, ForgetLost, BeginClosing,
         CloseResumability, CloseUnrestorable, OpenAttention, ForgetAttention;
    if x.DoStopSubtree? {
      StopSubtreeWrites(s, x.actor, x.target, x.allowClosing, x.storeOk);
      WroteNever(s, NextStop(s, x));
    } else if x.DoCompleteStop? {
      CompleteStopWrites(s, x.evidenceClean, x.storeOk);
    } else {
      StopStepTame(s, x);
      WroteNever(s, NextStop(s, x));
    }
  }

  /** The pending stop covers the subtree its target had when it was requested, and every member is quiescent. */
  ghost predicate StopIsQuiescent(s: State) {
    && s.stop.Some? && StopNamed(s.store.journal, s.store.durable, s.stop.value.seqNo)
    && s.stop.value.members == StopMembers(s.store.durable, s.stop.value.seqNo)
    && forall i | i in s.stop.value.members :: Quiescent(s, i)
  }

  /** In every run, across every crash, the step that journals a completed stop finds every delegate the stop covers quiescent;
      and what it covers is the whole subtree its target had when the stop was requested. */
  lemma StopCompletesQuiescent(limits: Limits, steps: seq<Step>, step: Step, k: nat)
    requires Journals(Run(Init(limits), steps), Next(Run(Init(limits), steps), step), k)
    ensures StopIsQuiescent(Run(Init(limits), steps))
  {
    hide Inv, Next, Quiescent, StopNamed, Run;
    var s := Run(Init(limits), steps);
    RunKeepsInv(limits, steps);
    InvJournal(s);
    OnlyCompletionCompletes(s, step, k);
    EndedHadStop(s, Next(s, step));
    forall i | i in s.stop.value.members ensures Quiescent(s, i) { EndedIsQuiescent(s, Next(s, step), i); }
    StopIsNamed(s);
  }

  lemma EndedHadStop(s: State, n: State)
    requires StopEnded(s, n)
    ensures s.stop.Some?
  {
  }

  lemma InvJournal(s: State)
    requires Inv(s)
    ensures JournalInv(s.store.journal, s.store.durable) && CoreInv(s)
  {
    hide StopAlwaysWins, JournalInv, BindInv, ResInv, SettleInv, IndexExact, TokInv, CapInv, TrackInv, StopShape;
  }

  lemma StopIsNamed(s: State)
    requires Inv(s) && s.stop.Some?
    ensures StopNamed(s.store.journal, s.store.durable, s.stop.value.seqNo) && s.stop.value.members == StopMembers(s.store.durable, s.stop.value.seqNo)
  {
    hide StopAlwaysWins, WellFormed, BindInv, ResInv, SettleInv, IndexExact, TokInv, CapInv, TrackInv, Fold, StopNamed;
    assert s.stop.value.target in StopMembers(s.store.durable, s.stop.value.seqNo);
    PendingStopIsItsRequest(s.store.journal, s.stop.value.seqNo);
  }

  /** Each set a pending stop waits for is exactly the live entries that touch a member. */
  ghost predicate TracksExactly(s: State) {
    s.stop.Some? ==>
      var st := s.stop.value;
      && st.active == ActiveIn(s.runs.live, st.members) && st.starts == StartsIn(s.runs.reservations, st.members)
      && st.work == WorkIn(s.tables.work, st.members) && st.receipts == ReceiptsIn(s.post.receipts, st.members)
      && st.quiets == QuietsIn(s.tables.quiets, st.members) && st.steering == SteeringIn(s.tables.steering, st.members)
      && st.models == ModelsIn(s.tables.models, st.members) && st.settlements == SettlementsIn(s.tables.settlements, st.members)
      && st.enqueues == WatchesIn(s.tables.enqueues, st.members) && st.deliveries == WatchesIn(s.tables.deliveries, st.members)
      && ClaimsIn(s.post.claims, s.post.parcels, st.members) == {}
  }

  /** While a stop is pending nothing escapes it, and it waits for nothing already gone. */
  lemma TrackingIsExact(limits: Limits, steps: seq<Step>)
    ensures TracksExactly(Run(Init(limits), steps))
  {
    RunKeepsInv(limits, steps);
    hide Run, Next, StopAlwaysWins, JournalInv, BindInv, ResInv, SettleInv, IndexExact, TokInv, CapInv, StopShape;
    hide ActiveIn, StartsIn, WorkIn, ReceiptsIn, QuietsIn, SteeringIn, ModelsIn, SettlementsIn, WatchesIn, ClaimsIn;
  }

  // ---- What a stop covers ----

  /** The pending stop is the one its journal event requested, and every member lies beneath its target. */
  ghost predicate FenceInv(s: State) {
    s.stop.Some? ==>
      && var st := s.stop.value;
      && 1 <= st.seqNo <= |s.store.journal| && s.store.journal[st.seqNo - 1] == StopRequested(st.target)
      && forall i | i in st.members :: Under(ShapeOf(s.store.durable), i, st.target)
  }

  /** The guard of the leak: a creation beneath a member, reserved earlier, that nothing refuses and the store takes. */
  predicate LateCreation(s: State, step: Step) {
    && s.stop.Some? && step.Starts? && step.start.DoCommitStart? && step.start.storeOk && step.start.token in s.runs.reservations
    && var r := s.runs.reservations[step.start.token];
    r.create && r.parent in s.stop.value.members && !CommitRefused(s, r, step.start.cancelled)
  }

  // ---- Steps that leave the fence where it is ----

  /** The same stop over the same tree. */
  ghost predicate SameFence(s: State, n: State) {
    && ShapeOf(n.store.durable) == ShapeOf(s.store.durable) && s.store.journal <= n.store.journal
    && (if s.stop.None? then n.stop.None?
        else n.stop.Some? && n.stop.value.members == s.stop.value.members && n.stop.value.target == s.stop.value.target && n.stop.value.seqNo == s.stop.value.seqNo)
  }

  lemma SameFenceKeeps(s: State, n: State)
    requires SameFence(s, n) && FenceInv(s)
    ensures FenceInv(n) && (FenceWhole(n) <==> FenceWhole(s))
  {
    hide Under;
    SameKeys(s.store.durable, n.store.durable);
    hide ShapeOf;
  }

  lemma SameKeys(d: Durable, d': Durable)
    requires ShapeOf(d') == ShapeOf(d)
    ensures d'.Keys == d.Keys
  {
    assert d.Keys == ShapeOf(d).Keys && d'.Keys == ShapeOf(d').Keys;
  }

  lemma TameFence(s: State, n: State)
    requires Tame(s, n)
    ensures ShapeOf(n.store.durable) == ShapeOf(s.store.durable) && s.store.journal <= n.store.journal
  {
    hide ShapeOf, Lawful, QueuesGrow;
  }

  lemma WrittenFence(s: State, n: State)
    requires Wrote(s, n) && Calmer(s.store.durable, n.store.durable)
    ensures ShapeOf(n.store.durable) == ShapeOf(s.store.durable) && s.store.journal <= n.store.journal
  {
    hide ShapeOf, Lawful;
  }

  lemma StartSame(s: State, x: StartStep)
    requires JournalInv(s.store.journal, s.store.durable) && (x.DoCommitStart? ==> NextStart(s, x).store == s.store)
    ensures SameFence(s, NextStart(s, x))
  {
    hide JournalInv, Tame, Wrote, Committed, ShapeOf, ReserveCreate, ReserveStart, ReserveAttention, ReserveOwedAttention, RegisterWaiter, AttachRuntime,
         AttachIdleRuntime, BeginStartInput, CompleteStartInput, FailCommitted, CommitStart, ReleaseReservation;
    StartTame(s, x);
    if !x.DoCommitStart? { TameFence(s, NextStart(s, x)); }
  }

  lemma FinishSame(s: State, x: FinishStep)
    requires JournalInv(s.store.journal, s.store.durable)
    ensures SameFence(s, NextFinish(s, x))
  {
    hide JournalInv, Tame, Calmer, ShapeOf, StopWins, ClosingBatch, Lawful, FinishGeneration, BeginFinalization, CompleteSettlement, FinishNoAction,
         PrepareNoAction, RequireRecovery, ReportQuiesced, AdmitReportWork, RecordNoAction, RecordTerminalSeen, QueuesGrow;
    var n := NextFinish(s, x);
    if x.DoFinishNoAction? {
      FinishNoActionWrites(s, x.token, x.now, x.storeOk);
      CalmShape(s.store.durable, n.store.durable);
    } else {
      FinishTame(s, x);
      TameFence(s, n);
    }
  }

  lemma CalmShape(d: Durable, d': Durable)
    requires Calmer(d, d')
    ensures ShapeOf(d') == ShapeOf(d)
  {
    hide ShapeOf;
  }

  lemma ClaimSame(s: State, x: ClaimStep)
    ensures SameFence(s, NextClaim(s, x))
  {
    hide ShapeOf, BeginSteer, CompleteSteer, AbortSteer, BeginModel, CompleteModel, AbortModel, BeginWork, CommitWork, AbortWork,
         FinishWork, BeginQuiet, CompleteQuiet, BeginEnqueue, CompleteEnqueue, AbortEnqueue, AcquireWatch, CompleteWatch;
  }

  lemma FenceSame(s: State, x: FenceStep)
    ensures SameFence(s, NextFence(s, x))
  {
    hide ShapeOf, NextFence;
    FenceFrame(s, x);
  }

  lemma DeliverSame(s: State, x: DeliverStep)
    requires JournalInv(s.store.journal, s.store.durable)
    ensures SameFence(s, NextDeliver(s, x))
  {
    hide JournalInv, Tame, Wrote, Calmer, ShapeOf, Acked, PostUpdate, PlanDelivery, BeginDelivery, CompleteDelivery, LeaveForRetry, HoldClaim, DropClaim,
         WithdrawWaiter, DropStoppedWaiter, AnswerWaiter, QueuesGrow, SameWork;
    var n := NextDeliver(s, x);
    if x.DoCompleteDelivery? {
      CompleteDeliveryWrites(s, x.token, x.committed, x.wake, x.storeOk);
      DeliverCalm(s, x);
      WrittenFence(s, n);
    } else {
      DeliverTame(s, x);
      TameFence(s, n);
    }
  }

  // ---- Requests, completions and restarts ----

  lemma RequestedFence(s: State, actor: Option<Lease>, target: Id, allowClosing: bool, storeOk: bool)
    requires JournalInv(s.store.journal, s.store.durable) && StopSubtree(s, actor, target, allowClosing, storeOk) != s
    ensures var n := StopSubtree(s, actor, target, allowClosing, storeOk); FenceInv(n) && FenceWhole(n)
  {
    var n := StopSubtree(s, actor, target, allowClosing, storeOk);
    StopSubtreeWrites(s, actor, target, allowClosing, storeOk);
    RequestedNames(s, actor, target, allowClosing, storeOk);
    hide JournalInv, StopSubtree, Wrote, Under, StopMembers;
    assert ShapeOf(n.store.durable) == ShapeOf(s.store.durable);
    SameKeys(s.store.durable, n.store.durable);
    SubtreeIsUnder(ShapeOf(s.store.durable), target);
    hide ShapeOf, Subtree;
  }

  lemma SubtreeIsUnder(t: Shape, target: Id)
    ensures forall i | i in Subtree(t, target) :: Under(t, i, target)
    ensures forall i | i in t && Under(t, i, target) :: i in Subtree(t, target)
  {
  }

  lemma RequestedNames(s: State, actor: Option<Lease>, target: Id, allowClosing: bool, storeOk: bool)
    requires StopSubtree(s, actor, target, allowClosing, storeOk) != s
    ensures var n := StopSubtree(s, actor, target, allowClosing, storeOk);
            && n.stop.Some? && n.stop.value.target == target && n.stop.value.seqNo == |s.store.journal| + 1
            && n.store.journal == s.store.journal + [StopRequested(target)]
  {
    hide ApplyBatch, Subtree, ClaimsIn, WaitersIn, OweAll, AttentionBlocks, Authorized, ActiveIn, StartsIn, WorkIn, ReceiptsIn, QuietsIn, SteeringIn, ModelsIn,
         SettlementsIn, WatchesIn;
  }

  /** The stop a restart rebuilds is the one that was pending. */
  lemma RestoredFence(s: State, pending: map<Id, set<nat>>)
    requires StopShape(s.stop, s.store.durable) && FenceInv(s)
    ensures SameFence(s, Restart(s, pending))
  {
    hide Under, OwedWakes, DerivedIndex, OpenLeases, ShapeOf;
    var d := s.store.durable;
    if s.stop.Some? { assert s.stop.value.target in d && d[s.stop.value.target].pendingStop == s.stop.value.seqNo; }
  }

  lemma StopStepFence(s: State, x: StopStep)
    requires JournalInv(s.store.journal, s.store.durable) && StopShape(s.stop, s.store.durable) && FenceInv(s)
    ensures var n := NextStop(s, x); FenceInv(n) && (FenceWhole(s) ==> FenceWhole(n))
  {
    hide JournalInv, StopShape, FenceInv, FenceWhole, SameFence, Tame, StopEnded, StopSubtree, RecoverStopped, CompleteStop, LoseRuntime, ForgetLost,
         BeginClosing, CloseResumability, CloseUnrestorable, Restart, OpenAttention, ForgetAttention;
    var n := NextStop(s, x);
    if x.DoStopSubtree? {
      if n != s { RequestedFence(s, x.actor, x.target, x.allowClosing, x.storeOk); }
    } else if x.DoCompleteStop? {
      CompleteStopWrites(s, x.evidenceClean, x.storeOk);
      if n != s { EndedFence(s, n); }
    } else {
      if x.DoRestart? { RestoredFence(s, x.wakes); } else { StopStepSame(s, x); }
      SameFenceKeeps(s, n);
    }
  }

  lemma EndedFence(s: State, n: State)
    requires StopEnded(s, n)
    ensures FenceInv(n) && FenceWhole(n)
  {
    hide Drained, SameWork, WakesOf, StopMembers;
  }

  lemma StopStepSame(s: State, x: StopStep)
    requires JournalInv(s.store.journal, s.store.durable) && !x.DoStopSubtree? && !x.DoCompleteStop? && !x.DoRestart?
    ensures SameFence(s, NextStop(s, x))
  {
    hide JournalInv, Tame, ShapeOf, StopSubtree, RecoverStopped, CompleteStop, LoseRuntime, ForgetLost,
         BeginClosing, CloseResumability, CloseUnrestorable, Restart, OpenAttention, ForgetAttention;
    StopStepTame(s, x);
    TameFence(s, NextStop(s, x));
  }

  // ---- Commits ----

  lemma CommittedFacts(s: State, n: State, t: Token)
    requires Committed(s, n, t) && s.stop.Some?
    ensures var r := s.runs.reservations[t];
            && RunOpened(s.store.durable, n.store.durable, r, |s.store.journal| + 1) && n.store.durable.Keys == s.store.durable.Keys + {r.id}
            && (r.create <==> r.id !in s.store.durable) && n.store.durable[r.id].open
            && n.stop.Some? && n.stop.value.members == s.stop.value.members && n.stop.value.target == s.stop.value.target
            && r.id !in s.stop.value.members && (r.create && r.parent != NO_ID ==> r.parent in s.store.durable)
  {
    hide JournalInv, StartedLive, ShapeOf;
  }

  lemma StopTargetKnown(s: State)
    requires Inv(s) && s.stop.Some?
    ensures s.stop.value.members <= s.store.durable.Keys && s.stop.value.target in s.stop.value.members && NO_ID !in s.store.durable
  {
    hide StopAlwaysWins, BindInv, ResInv, SettleInv, IndexExact, TokInv, CapInv, TrackInv, Fold, AggregateOk;
    assert NO_ID !in ShapeOf(s.store.durable);
  }

  lemma OldChain(d: Durable, d': Durable, n: nat, r: Reservation, i: Id, q: Id)
    requires WellFormed(d, n) && RunOpened(d, d', r, n + 1) && i in d
    ensures Under(ShapeOf(d'), i, q) <==> Under(ShapeOf(d), i, q)
  {
    if r.create { GrowthKeepsChains(ShapeOf(d), r.id, Node(r.parent, n + 1), i, q); }
  }

  lemma NewChain(d: Durable, d': Durable, n: nat, r: Reservation, q: Id)
    requires WellFormed(d, n) && RunOpened(d, d', r, n + 1) && r.create && q in d
    ensures Under(ShapeOf(d'), r.id, q) <==> r.parent != NO_ID && Under(ShapeOf(d), r.parent, q)
  {
    if r.parent != NO_ID { assert AggregateOk(r.parent, d[r.parent], n); }
    GrowthAddsLeaf(ShapeOf(d), r.id, Node(r.parent, n + 1), q);
  }

  /** Chains of a tree that grew by one run. */
  lemma OpenedChains(d: Durable, d': Durable, n: nat, r: Reservation, target: Id, members: set<Id>)
    requires WellFormed(d, n) && RunOpened(d, d', r, n + 1) && target in d && r.id !in members && NO_ID !in members && members <= d.Keys
    requires forall i | i in members :: Under(ShapeOf(d), i, target)
    ensures forall i | i in members :: Under(ShapeOf(d'), i, target)
    ensures (forall i | i in d && Under(ShapeOf(d), i, target) :: i in members) ==>
              ((forall i | i in d' && Under(ShapeOf(d'), i, target) :: i in members) <==> !(r.create && r.parent in members))
  {
    forall i | i in d ensures Under(ShapeOf(d'), i, target) <==> Under(ShapeOf(d), i, target) { OldChain(d, d', n, r, i, target); }
    if r.create { NewChain(d, d', n, r, target); }
    hide WellFormed, Under, ShapeOf;
  }

  lemma CommittedFence(s: State, n: State, t: Token)
    requires Inv(s) && FenceInv(s) && Committed(s, n, t) && s.store.journal <= n.store.journal && s.stop.Some?
    ensures FenceInv(n)
    ensures var r := s.runs.reservations[t]; FenceWhole(s) ==> (FenceWhole(n) <==> !(r.create && r.parent in s.stop.value.members))
  {
    hide Inv, CoreInv, Committed, Under, ShapeOf, RunOpened, WellFormed, Fold, StopCovers;
    CommittedToken(s, n, t);
    InvJournal(s);
    CommittedFacts(s, n, t);
    CommittedSeq(s, n, t);
    StopTargetKnown(s);
    OpenedChains(s.store.durable, n.store.durable, |s.store.journal|, s.runs.reservations[t], s.stop.value.target, s.stop.value.members);
  }

  lemma CommittedSeq(s: State, n: State, t: Token)
    requires Committed(s, n, t) && s.stop.Some?
    ensures n.stop.Some? && n.stop.value.seqNo == s.stop.value.seqNo
  {
    hide JournalInv, StartedLive, ShapeOf, RunOpened;
  }

  lemma CreationApplies(d: Durable, n: nat, r: Reservation)
    requires r.create && r.id !in d && r.id != NO_ID && r.generation == 1 && (r.parent == NO_ID || r.parent in d)
    ensures ApplyBatch(d, n, StartEvents(r)).Some?
  {
    var e, f := Created(r.id, r.parent, true), RunStarted(r.id, 1, r.trigger);
    assert StartEvents(r) == [e, f];
    TwoEvents(d, n, e, f);
  }

  lemma ReservationNames(s: State, t: Token)
    requires CoreInv(s) && t in s.runs.reservations
    ensures ReservationOk(s.runs.reservations[t], s.store.durable)
  {
    hide JournalInv, BindInv, SettleInv, IndexExact, TokInv, TrackInv, CapInv, StopShape, ReservationOk;
  }

  lemma CreationAppends(s: State, r: Reservation, storeOk: bool)
    requires r.create && r.id !in s.store.durable && r.id != NO_ID && r.generation == 1 && (r.parent == NO_ID || r.parent in s.store.durable)
    ensures Append(s, StartEvents(r), storeOk).Some? <==> storeOk
  {
    hide ApplyBatch, StartEvents;
    CreationApplies(s.store.durable, |s.store.journal|, r);
  }

  lemma CommitStores(s: State, x: StartStep)
    requires x.DoCommitStart? && x.token in s.runs.reservations
    ensures var r := s.runs.reservations[x.token];
            NextStart(s, x).store != s.store <==> !CommitRefused(s, r, x.cancelled) && Append(s, StartEvents(r), x.storeOk).Some?
  {
    assert StartEvents(s.runs.reservations[x.token]) != [];
    hide CommitRefused, StartEvents, ApplyBatch, Started, AddChildEdge, WakesAfterStart, Moved, UntrackStart, ReleaseReservation;
  }

  lemma RefusedFor(s: State, r: Reservation, cancelled: bool)
    requires r.create && !CommitRefused(s, r, cancelled)
    ensures r.id !in s.store.durable && r.generation == 1
  {
    hide StopCovers, LaneCovers, DeliveryWork, Fenced;
  }

  /** A commit that lands is one nothing refuses and the store takes. */
  lemma LandedCreation(s: State, x: StartStep)
    requires Inv(s) && x.DoCommitStart? && x.token in s.runs.reservations && s.runs.reservations[x.token].create
    ensures NextStart(s, x).store != s.store <==> x.storeOk && !CommitRefused(s, s.runs.reservations[x.token], x.cancelled)
  {
    hide Inv, CoreInv, CommitRefused, NextStart, StartEvents, Append, JournalInv;
    InvJournal(s);
    ReservationNames(s, x.token);
    CommitStores(s, x);
    var r := s.runs.reservations[x.token];
    if !CommitRefused(s, r, x.cancelled) {
      RefusedFor(s, r, x.cancelled);
      CreationAppends(s, r, x.storeOk);
    }
  }

  lemma CommitFence(s: State, x: StartStep)
    requires Inv(s) && FenceInv(s) && x.DoCommitStart? && NextStart(s, x).store != s.store
    ensures var n := NextStart(s, x); FenceInv(n) && (FenceWhole(s) ==> (FenceWhole(n) <==> !LateCreation(s, Starts(x))))
  {
    InvJournal(s);
    StartTame(s, x);
    StartPrefix(s, x);
    CommittedToken(s, NextStart(s, x), x.token);
    if s.runs.reservations[x.token].create { LandedCreation(s, x); }
    hide Inv, FenceInv, FenceWhole, NextStart, Committed, Wrote, JournalInv, CommitRefused;
    if s.stop.Some? { CommittedFence(s, NextStart(s, x), x.token); } else { NoFence(s, NextStart(s, x), x.token); }
  }

  lemma CommittedToken(s: State, n: State, t: Token)
    requires Committed(s, n, t)
    ensures t in s.runs.reservations
  {
  }

  lemma NoFence(s: State, n: State, t: Token)
    requires Committed(s, n, t) && s.stop.None?
    ensures FenceInv(n) && FenceWhole(n)
  {
    hide JournalInv, StartedLive, ShapeOf, RunOpened;
  }

  lemma StartPrefix(s: State, x: StartStep)
    requires JournalInv(s.store.journal, s.store.durable)
    ensures s.store.journal <= NextStart(s, x).store.journal
  {
    hide JournalInv, NextStart, Won, StopWins;
    StartWins(s, x);
    WonPrefix(s, NextStart(s, x));
  }

  lemma WonPrefix(s: State, n: State)
    requires Won(s, n)
    ensures s.store.journal <= n.store.journal
  {
    hide StopWins;
  }

  // ---- Every step, every run ----

  /** One step keeps the fence whole exactly when it is not a late creation. */
  lemma StepFence(s: State, step: Step)
    requires Inv(s) && FenceInv(s)
    ensures var n := Next(s, step); FenceInv(n) && (FenceWhole(s) ==> (FenceWhole(n) <==> !LateCreation(s, step)))
  {
    hide Inv, FenceInv, FenceWhole, JournalInv, StopShape, CoreInv, SameFence, TokInv, Minted, LateCreation, NextStart, NextFinish, NextClaim, NextDeliver, NextStop, NextFence;
    InvJournal(s);
    CoreParts(s);
    NotLate(s, step);
    var n := Next(s, step);
    match step
    case Starts(x) =>
      if x.DoCommitStart? && n.store != s.store { CommitFence(s, x); }
      else {
        StartSame(s, x);
        SameFenceKeeps(s, n);
        NotLanded(s, x);
      }
    case Finishes(x) =>
      FinishSame(s, x);
      SameFenceKeeps(s, n);
    case ClaimsWork(x) =>
      ClaimSame(s, x);
      SameFenceKeeps(s, n);
    case Delivers(x) =>
      DeliverSame(s, x);
      SameFenceKeeps(s, n);
    case Stops(x) => StopStepFence(s, x);
    case FencesOff(x) =>
      FenceSame(s, x);
      SameFenceKeeps(s, n);
  }

  lemma NotLate(s: State, step: Step)
    ensures LateCreation(s, step) ==> step.Starts? && step.start.DoCommitStart?
  {
  }

  lemma NotLanded(s: State, x: StartStep)
    requires Inv(s) && (x.DoCommitStart? ==> NextStart(s, x).store == s.store)
    ensures !LateCreation(s, Starts(x))
  {
    if LateCreation(s, Starts(x)) {
      LandedCreation(s, x);
      assert false;
    }
  }

  lemma {:induction false} RunFence(limits: Limits, steps: seq<Step>)
    ensures FenceInv(Run(Init(limits), steps))
  {
    hide Inv, Next, FenceInv;
    if steps == [] {
      InitFence(limits);
    } else {
      RunFence(limits, steps[..|steps| - 1]);
      RunKeepsInv(limits, steps[..|steps| - 1]);
      StepFence(Run(Init(limits), steps[..|steps| - 1]), steps[|steps| - 1]);
    }
  }

  lemma InitFence(limits: Limits)
    ensures FenceInv(Init(limits))
  {
  }

  /** The fence stays whole. */
  ghost predicate LeaksOnlyLate(s: State, step: Step) {
    hide Next; FenceWhole(s) ==> (FenceWhole(Next(s, step)) <==> !LateCreation(s, step))
  }

  /** In every reachable state whose stop covers everything beneath its target, every step keeps it so, exactly unless it is a
      creation beneath a member, reserved before the stop, that lands. */
  lemma OnlyLateCreationsEscape(limits: Limits, steps: seq<Step>, step: Step)
    ensures LeaksOnlyLate(Run(Init(limits), steps), step)
  {
    hide Inv, Next, FenceInv, FenceWhole, LateCreation, Run;
    RunKeepsInv(limits, steps);
    RunFence(limits, steps);
    StepFence(Run(Init(limits), steps), step);
  }
}
