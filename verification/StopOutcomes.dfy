/** What stops, restarts, closes and wakes leave behind, operation by operation. */
module StopOutcomes {
  import opened Types
  import opened Tree
  import opened Journal
  import opened JournalLaws
  import opened State
  import opened Settle
  import opened Finishing
  import opened Stopping
  import opened Effects
  import opened Invariants

  // ---- Requests ----

  /** A stop is taken from whoever controls the target, one at a time, unless an attention start is under way beneath it. */
  predicate Stoppable(s: State, actor: Option<Lease>, target: Id, allowClosing: bool) {
    && s.stop.None? && (s.closing ==> allowClosing) && Authorized(s, actor, target)
    && forall t | t in s.runs.reservations && s.runs.reservations[t].trigger == AttentionTrigger ::
         s.runs.reservations[t].id !in Subtree(ShapeOf(s.store.durable), target)
  }

  /** Every claim that touches the subtree is gone, and the waiters of those claims pass to the cancel plan. */
  predicate ClaimsCancelled(s: State, n: State, members: set<Id>) {
    && (forall k | k in n.post.claims :: k in s.post.claims && n.post.claims[k] == s.post.claims[k])
    && (forall k | k in s.post.claims ::
          k !in n.post.claims <==> s.post.claims[k] in s.post.parcels
                                   && (s.post.parcels[s.post.claims[k]].delegate in members || s.post.parcels[s.post.claims[k]].owner in members))
    && n.post.waiters.Keys == s.post.waiters.Keys
    && forall w | w in s.post.waiters ::
         n.post.waiters[w] == if s.post.waiters[w].Claimed? && exists k | k in s.post.claims :: k !in n.post.claims && s.post.parcels[s.post.claims[k]].waiter == w
                              then Owed else s.post.waiters[w]
  }

  lemma StopRequestedExactly(s: State, actor: Option<Lease>, target: Id, allowClosing: bool, storeOk: bool)
    requires JournalInv(s.store.journal, s.store.durable) && StopShape(s.stop, s.store.durable)
    ensures var n := StopSubtree(s, actor, target, allowClosing, storeOk);
            if Stoppable(s, actor, target, allowClosing) && storeOk
            then && n.stop.Some? && n.stop.value.target == target && n.stop.value.seqNo == |s.store.journal| + 1
                 && n.stop.value.members == Subtree(ShapeOf(s.store.durable), target) && n.store.journal == s.store.journal + [StopRequested(target)]
                 && n.post.receipts == s.post.receipts && n.post.parcels == s.post.parcels
            else n == s
  {
    if s.stop.None? && Authorized(s, actor, target) { OneEvent(s.store.durable, |s.store.journal|, StopRequested(target)); }
    hide ApplyBatch, WellFormed, Fold, Subtree, ShapeOf, Under, ClaimsIn, WaitersIn, OweAll, ActiveIn, StartsIn, WorkIn, ReceiptsIn, QuietsIn, SteeringIn,
         ModelsIn, SettlementsIn, WatchesIn;
  }

  lemma StopCancelsClaims(s: State, actor: Option<Lease>, target: Id, allowClosing: bool, storeOk: bool)
    requires StopSubtree(s, actor, target, allowClosing, storeOk) != s
    ensures var n := StopSubtree(s, actor, target, allowClosing, storeOk); n.stop.Some? && ClaimsCancelled(s, n, n.stop.value.members)
  {
    hide Append, Subtree, ShapeOf, AttentionBlocks, Authorized, ActiveIn, StartsIn, WorkIn, ReceiptsIn, QuietsIn, SteeringIn, ModelsIn, SettlementsIn, WatchesIn;
  }

  // ---- Draining ----

  /** Only delivery receipts, active runs and their settlements may be left when a stop finishes a run itself. */
  predicate OnlyRunsLeft(st: StopState) {
    st.starts == {} && st.work == {} && st.quiets == {} && st.steering == {} && st.models == {} && st.enqueues == {} && st.deliveries == {}
  }

  /** A run the stop may finish itself: tracked, stopping under this very stop, in recovery, its runner gone. */
  predicate Recoverable(s: State, l: Lease) {
    && s.stop.Some? && OnlyRunsLeft(s.stop.value) && l in s.stop.value.active && l.id in s.stop.value.members
    && ExactLease(s, l) && s.store.durable[l.id].phase == Stopping && s.store.durable[l.id].pendingStop == s.stop.value.seqNo
    && s.runs.live[l.id].recovery && !s.runs.live[l.id].runnerPending
  }

  lemma RecoveryIs(s: State, l: Lease, now: nat, storeOk: bool)
    ensures var n := RecoverStopped(s, l, now, storeOk);
            if Recoverable(s, l) then n == FinishWith(s, l, [StoppedFinishEvent(l, None, now)], storeOk, LatchNothing) else n == s
  {
    hide FinishWith, StoppedFinishEvent, OnlyRunEnds, SteersReleased, EvidenceGrows, SameWaiters, OnlyGeneration;
  }

  /** A stop that ends a run of its own never fails but for the store: the run is over and unbound. */
  lemma RecoveryEnds(s: State, l: Lease, now: nat)
    requires JournalInv(s.store.journal, s.store.durable) && Recoverable(s, l)
    ensures var n := RecoverStopped(s, l, now, true);
            && n.store.journal == s.store.journal + [StoppedFinishEvent(l, None, now)]
            && !OpenRun(n.store.durable, l.id, l.generation) && LeaseAt(n.runs.live, l.id).None?
            && n.stop.Some? && n.stop.value.active == s.stop.value.active - {l}
  {
    StoppedLands(s.store.durable, |s.store.journal|, l, now);
    RecoveryIs(s, l, now, true);
    hide RecoverStopped, StoppedFinishEvent, ApplyBatch, WellFormed, Fold, KeptSteering, KeptModels, KeptSettlements, Unbound, SteersReleased, EvidenceGrows,
         SameWaiters, OnlyRunEnds;
  }

  lemma StoppedLands(d: Durable, n: nat, l: Lease, now: nat)
    requires WellFormed(d, n) && OpenRun(d, l.id, l.generation) && d[l.id].phase == Stopping
    ensures var r := ApplyBatch(d, n, [StoppedFinishEvent(l, None, now)]); r.Some? && l.id in r.value && !r.value[l.id].open
  {
    assert AggregateOk(l.id, d[l.id], n);
    forall k | 0 <= k < |d[l.id].queue| ensures d[l.id].queue[k].did != ReportId(l) { assert DidOk(l.id, d[l.id], n, d[l.id].queue[k].did); }
    OneEvent(d, n, StoppedFinishEvent(l, None, now));
    hide WellFormed;
  }

  /** Nothing the stop waits for, and no wake a member owes. */
  predicate Done(s: State) {
    && s.stop.Some? && OnlyRunsLeft(s.stop.value) && s.stop.value.active == {} && s.stop.value.settlements == {} && s.stop.value.receipts == {}
    && forall i | i in s.stop.value.members :: WakesOf(s, i) == {}
  }

  /** A stop completes exactly when it is done, the evidence outside is clean and the store takes it. */
  lemma CompletionIs(s: State, evidenceClean: bool, storeOk: bool)
    requires JournalInv(s.store.journal, s.store.durable) && StopShape(s.stop, s.store.durable)
    requires s.stop.Some? && s.stop.value.active == {} ==> forall i | i in s.stop.value.members :: i in s.store.durable && !s.store.durable[i].open
    ensures var n := CompleteStop(s, evidenceClean, storeOk);
            if Done(s) && evidenceClean && storeOk
            then n.stop.None? && n.store.journal == s.store.journal + [StopCompleted(s.stop.value.target, s.stop.value.seqNo)] else n == s
  {
    if s.stop.Some? { OneEvent(s.store.durable, |s.store.journal|, StopCompleted(s.stop.value.target, s.stop.value.seqNo)); }
    hide ApplyBatch, WellFormed, Fold, KeepUncovered, WakesOf;
  }

  // ---- Restarts ----

  /** A new process knows the journal, the runs it lost, the wakes still pending and the stop the marks name; nothing else survives. */
  lemma RestartForgets(s: State, pending: map<Id, set<nat>>)
    ensures var n := Restart(s, pending);
            && n.store.journal == s.store.journal && n.store.durable == s.store.durable && n.limits == s.limits && !n.closing
            && n.runs.live == map[] && n.runs.reservations == map[] && n.runs.inputs == map[] && n.runs.turns == 0 && n.runs.drives == 0
            && (forall l :: l in n.runs.lost <==> OpenRun(s.store.durable, l.id, l.generation))
            && n.tables.steering == map[] && n.tables.models == map[] && n.tables.settlements == map[] && n.tables.work == map[] && n.tables.quiets == map[]
            && n.tables.enqueues == map[] && n.tables.deliveries == map[]
            && n.post.receipts == map[] && n.post.claims == map[] && n.post.parcels == map[] && n.post.waiters == map[]
            && (forall i :: WakesOf(n, i) == if i in pending && i in s.store.durable then pending[i] - {0} else {})
            && n.guards == Guards({}, map[], map[], map[], map[])
            && (forall p :: Kids(n.store.children, p) == if p == NO_ID then {} else ChildrenOf(ShapeOf(s.store.durable), p))
  {
    hide RestoredStop, ShapeOf;
    ChildrenKnown(s.store.durable);
  }

  lemma ChildrenKnown(d: Durable)
    ensures forall p :: Kids(DerivedIndex(d), p) == if p == NO_ID then {} else ChildrenOf(ShapeOf(d), p)
  {
  }

  /** The restored stop is the one its marks name, tracking nothing: nothing survived to track. */
  lemma RestoredIs(d: Durable, journal: seq<Event>)
    requires OneStop(d)
    ensures var r := RestoredStop(d, journal);
            && ((forall i | i in d :: d[i].pendingStop == 0) ==> r.None?)
            && forall i | i in d && d[i].pendingStop != 0 :: var n := d[i].pendingStop;
                 if n <= |journal| && journal[n - 1].StopRequested?
                 then r == Some(StopState(n, journal[n - 1].id, StopMembers(d, n), {}, {}, {}, {}, {}, {}, {}, {}, {}, {}))
                 else r.None?
  {
  }

  /** A lost run ends by its phase, unless a runtime came back for it; a refusal of the store leaves it lost. */
  lemma LossIs(s: State, l: Lease, now: nat, storeOk: bool)
    ensures var n := LoseRuntime(s, l, now, storeOk);
            if l in s.runs.lost && OpenRun(s.store.durable, l.id, l.generation) && LeaseAt(s.runs.live, l.id) != Some(l)
               && LostEvents(l, s.store.durable[l.id], now).Some? && Append(s, LostEvents(l, s.store.durable[l.id], now).value, storeOk).Some?
            then n == Append(s, LostEvents(l, s.store.durable[l.id], now).value, storeOk).value else n == s
  {
    hide LostEvents, Append;
  }

  lemma LossForgotten(s: State, l: Lease)
    ensures var n := ForgetLost(s, l); if OpenRun(s.store.durable, l.id, l.generation) then n == s else n.runs.lost == s.runs.lost - {l}
  {
  }

  // ---- Closing ----

  /** Closing a delegate for good is its controller's to ask while the tree is open, or follows from lost restore inputs while it is idle. */
  lemma ClosureIs(s: State, actor: Option<Lease>, id: Id, storeOk: bool)
    ensures var n := CloseResumability(s, actor, id, storeOk);
            if !s.closing && Authorized(s, actor, id) && s.store.durable[id].resumable && storeOk
            then n.store.journal == s.store.journal + [ResumabilityClosed(id)] && id in n.store.durable && !n.store.durable[id].resumable else n == s
    ensures var n := CloseUnrestorable(s, id, storeOk);
            if id in s.store.durable && s.store.durable[id].phase == Idle && s.store.durable[id].resumable && storeOk
            then n.store.journal == s.store.journal + [ResumabilityClosed(id)] && id in n.store.durable && n.store.durable[id].phase == Closed else n == s
    ensures BeginClosing(s).closing
  {
    OneEvent(s.store.durable, |s.store.journal|, ResumabilityClosed(id));
    hide ApplyBatch;
  }

  // ---- Wakes ----

  /** A wake is owed once noted, besides those already owed; a start under way on the delegate's attention keeps new ones out. */
  lemma WakeNoted(s: State, id: Id, wake: nat)
    ensures var n := OpenAttention(s, id, wake);
            var starting := exists t | t in s.runs.reservations :: s.runs.reservations[t].id == id && s.runs.reservations[t].trigger == AttentionTrigger;
            forall i :: WakesOf(n, i) == if i == id && id != NO_ID && wake != 0 && id in s.store.durable && !starting then WakesOf(s, i) + {wake} else WakesOf(s, i)
  {
  }

  lemma WakeForgotten(s: State, id: Id, wake: nat)
    ensures var n := ForgetAttention(s, id, wake); forall i :: WakesOf(n, i) == if i == id then WakesOf(s, i) - {wake} else WakesOf(s, i)
  {
  }
}
