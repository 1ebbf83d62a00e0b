/** Requesting, draining and completing a stop, restarting and closing keep the core invariants. */
module StopKept {
  import opened Types
  import opened Tree
  import opened Journal
  import opened JournalLaws
  import opened State
  import opened Settle
  import opened Finishing
  import opened Stopping
  import opened Effects
  import opened Invariants
  import opened FinishKept

  lemma SameLeasesReflexive(live: map<Id, Live>)
    ensures SameLeases(live, live)
  {
  }

  /** A step that marks or unmarks delegates, moves no run, and leaves a stop that tracks exactly. */
  lemma MarkStepKeepsCore(s: State, n: State)
    requires CoreInv(s) && JournalInv(n.store.journal, n.store.durable) && SameWork(s.store.durable, n.store.durable)
    requires n.store.children == s.store.children && n.runs == s.runs && n.tables == s.tables && n.limits == s.limits
    requires StopShape(n.stop, n.store.durable) && TrackInv(n) && TokInv(n)
    ensures CoreInv(n)
  {
    hide TokInv, TrackInv, JournalInv, BindInv, ResInv, StopShape, SettleInv, SameLeases, IndexExact, Slots, Bound;
    SameLeasesReflexive(s.runs.live);
    SameBindings(s.runs.live, n.runs.live, s.store.durable, n.store.durable);
    SameReservations(s.runs.reservations, s.store.durable, n.store.durable);
    SameBound(s.runs.live, n.runs.live, s.store.durable, n.store.durable, false);
    SameBound(s.runs.live, n.runs.live, s.store.durable, n.store.durable, true);
  }

  // ---- Request ----

  lemma SnapshotTracks(s: State, seqNo: nat, target: Id, members: set<Id>)
    ensures TrackInv(s.(stop := Some(Snapshot(s, seqNo, target, members))))
  {
    hide ActiveIn, StartsIn, WorkIn, ReceiptsIn, QuietsIn, SteeringIn, ModelsIn, SettlementsIn, WatchesIn;
  }

  lemma RequestedTracks(s: State, n: State)
    requires TokInv(s) && n.runs == s.runs && n.tables == s.tables && n.post.receipts == s.post.receipts && n.nextToken == s.nextToken
    requires n.post.parcels == s.post.parcels && n.post.waiters.Keys == s.post.waiters.Keys && n.guards == s.guards
    requires n.stop.Some? && n.stop.value == Snapshot(s, n.stop.value.seqNo, n.stop.value.target, n.stop.value.members)
    ensures TokInv(n) && TrackInv(n)
  {
    hide ActiveIn, StartsIn, WorkIn, ReceiptsIn, QuietsIn, SteeringIn, ModelsIn, SettlementsIn, WatchesIn, Minted;
    SnapshotTracks(s, n.stop.value.seqNo, n.stop.value.target, n.stop.value.members);
  }

  lemma OweAllKeys(waiters: map<Token, WaiterState>, owed: set<Token>)
    ensures OweAll(waiters, owed).Keys == waiters.Keys
  {
  }

  lemma RequestedShape(d: Durable, n: nat, target: Id, d': Durable, stop: StopState)
    requires WellFormed(d, n) && Apply(d, n + 1, StopRequested(target)) == Some(d')
    requires stop.seqNo == n + 1 && stop.target == target && stop.members == Subtree(ShapeOf(d), target)
    ensures StopShape(Some(stop), d')
  {
    hide Under, Apply, WellFormed;
    StopRequestEffect(d, n, target, d');
  }

  lemma StopSubtreeKeepsCore(s: State, actor: Option<Lease>, target: Id, allowClosing: bool, storeOk: bool)
    requires CoreInv(s)
    ensures CoreInv(StopSubtree(s, actor, target, allowClosing, storeOk))
  {
    hide BindInv, ResInv, StopShape, SettleInv, CapInv, IndexExact, TrackInv, TokInv, WellFormed, SameWork, Apply, Append, Fold, Subtree,
         Authorized, Snapshot, OweAll, ClaimsIn, WaitersIn, AttentionBlocks;
    var n := StopSubtree(s, actor, target, allowClosing, storeOk);
    var e := StopRequested(target);
    if n.stop != s.stop {
      AppendEffect(s, [e], storeOk);
      OneEvent(s.store.durable, |s.store.journal|, e);
      StopRequestEffect(s.store.durable, |s.store.journal|, target, n.store.durable);
      SnapshotIs(s, |s.store.journal| + 1, target, Subtree(ShapeOf(s.store.durable), target));
      RequestedShape(s.store.durable, |s.store.journal|, target, n.store.durable, n.stop.value);
      OweAllKeys(s.post.waiters, WaitersIn(s.post.claims, s.post.parcels, n.stop.value.members));
      RequestedTracks(s, n);
      MarkStepKeepsCore(s, n);
    }
  }

  lemma SnapshotIs(s: State, seqNo: nat, target: Id, members: set<Id>)
    ensures var t := Snapshot(s, seqNo, target, members); t.seqNo == seqNo && t.target == target && t.members == members
  {
  }

  // ---- Drain and completion ----

  lemma RecoverStoppedKeepsCore(s: State, l: Lease, now: nat, storeOk: bool)
    requires CoreInv(s)
    ensures CoreInv(RecoverStopped(s, l, now, storeOk))
  {
    hide CoreInv, FinishStopped;
    if ExactLease(s, l) { FinishStoppedKeepsCore(s, l, None, now, storeOk, LatchNothing); }
  }

  lemma NoStopTracks(s: State, n: State)
    requires TokInv(s) && n.stop.None? && n.runs == s.runs && n.tables == s.tables && n.post == s.post && n.guards == s.guards && n.nextToken == s.nextToken
    ensures TokInv(n) && TrackInv(n)
  {
    hide Minted;
  }

  lemma CompleteStopKeepsCore(s: State, evidenceClean: bool, storeOk: bool)
    requires CoreInv(s)
    ensures CoreInv(CompleteStop(s, evidenceClean, storeOk))
  {
    hide BindInv, ResInv, SettleInv, CapInv, IndexExact, TrackInv, TokInv, WellFormed, SameWork, Apply, Append, Fold, Drained, WakesOf, StopMembers;
    var n := CompleteStop(s, evidenceClean, storeOk);
    if s.stop.Some? && n.stop.None? {
      var e := StopCompleted(s.stop.value.target, s.stop.value.seqNo);
      AppendEffect(s, [e], storeOk);
      OneEvent(s.store.durable, |s.store.journal|, e);
      StopCompleteEffect(s.store.durable, |s.store.journal|, e, n.store.durable);
      NoStopTracks(s, n);
      MarkStepKeepsCore(s, n);
    }
  }

  // ---- Restart ----

  lemma DerivedIndexExact(d: Durable)
    requires WellFounded(ShapeOf(d))
    ensures IndexExact(DerivedIndex(d), ShapeOf(d))
  {
    forall p: Id | p != NO_ID ensures Kids(DerivedIndex(d), p) == ChildrenOf(ShapeOf(d), p) {
    }
  }

  /** The stop a restart rebuilds is the one the marks name. */
  lemma RestoredShape(journal: seq<Event>, d: Durable)
    requires JournalInv(journal, d)
    ensures StopShape(RestoredStop(d, journal), d)
    ensures RestoredStop(d, journal).Some? <==> exists i | i in d :: d[i].pendingStop != 0
    ensures RestoredStop(d, journal).Some? ==> StopNamed(journal, d, RestoredStop(d, journal).value.seqNo)
                                               && RestoredStop(d, journal).value.target == journal[RestoredStop(d, journal).value.seqNo - 1].id
  {
    hide Fold, AggregateOk, WellFounded, Subtree, ShapeOf;
    if i :| i in d && d[i].pendingStop != 0 {
      forall j | j in d && d[j].pendingStop != 0 ensures StopNamed(journal, d, d[j].pendingStop) && d[j].pendingStop == d[i].pendingStop {
        assert j in StopMembers(d, d[j].pendingStop);
        PendingStopIsItsRequest(journal, d[j].pendingStop);
      }
    }
  }

  lemma EmptyTables(s: State)
    requires s.runs.live == map[] && s.runs.reservations == map[] && s.runs.inputs == map[]
    requires s.tables == Tables(map[], map[], map[], map[], map[], map[], map[])
    requires s.post == Post(map[], map[], map[], map[], s.post.attention) && s.guards.reclamations == map[]
    requires s.stop.Some? ==> s.stop.value == StopState(s.stop.value.seqNo, s.stop.value.target, s.stop.value.members, {}, {}, {}, {}, {}, {}, {}, {}, {}, {})
    ensures TokInv(s) && TrackInv(s)
  {
  }

  lemma RestartKeepsCore(s: State, pending: map<Id, set<nat>>)
    requires CoreInv(s)
    ensures CoreInv(Restart(s, pending))
  {
    hide TrackInv, TokInv, StopShape, IndexExact, DerivedIndex, Fold, AggregateOk, OwedWakes, ShapeOf;
    var n := Restart(s, pending);
    DerivedIndexExact(s.store.durable);
    RestoredShape(s.store.journal, s.store.durable);
    EmptyTables(n);
    assert Bound(n.runs.live, n.store.durable, false) == {} && Bound(n.runs.live, n.store.durable, true) == {};
    assert Slots(n.runs.reservations, false) == {} && Slots(n.runs.reservations, true) == {};
  }

  // ---- Lost runs ----

  /** An open run no runtime is bound to ended. */
  lemma LostKeepsCore(s: State, n: State, l: Lease)
    requires CoreInv(s) && n == s.(store := s.store.(journal := n.store.journal, durable := n.store.durable))
    requires JournalInv(n.store.journal, n.store.durable) && RunClosed(s.store.durable, n.store.durable, l)
    requires LeaseAt(s.runs.live, l.id).None?
    ensures CoreInv(n)
  {
    hide TokInv, TrackInv, JournalInv, BindInv, ResInv, StopShape, SettleInv, IndexExact, Slots, Bound, RunClosed;
    LostParts(s.runs.live, s.store.durable, n.store.durable, l, s.stop);
    SameReservations(s.runs.reservations, s.store.durable, n.store.durable);
    SameStoreTracks(s, n);
  }

  lemma SameStoreTracks(s: State, n: State)
    requires TrackInv(s) && TokInv(s) && n == s.(store := n.store)
    ensures TrackInv(n) && TokInv(n)
  {
    hide ActiveIn, StartsIn, WorkIn, ReceiptsIn, QuietsIn, SteeringIn, ModelsIn, SettlementsIn, WatchesIn, Minted;
  }

  lemma LostParts(live: map<Id, Live>, d: Durable, d': Durable, l: Lease, stop: Option<StopState>)
    requires BindInv(live, d) && RunClosed(d, d', l) && LeaseAt(live, l.id).None? && StopShape(stop, d)
    ensures BindInv(live, d') && StopShape(stop, d') && d'.Keys == d.Keys && ShapeOf(d') == ShapeOf(d)
    ensures Bound(live, d', false) == Bound(live, d, false) && Bound(live, d', true) == Bound(live, d, true)
  {
  }

  lemma LoseRuntimeKeepsCore(s: State, l: Lease, now: nat, storeOk: bool)
    requires CoreInv(s)
    ensures CoreInv(LoseRuntime(s, l, now, storeOk))
  {
    hide ResInv, StopShape, SettleInv, CapInv, IndexExact, TrackInv, TokInv, WellFormed, ClosingBatch, RunClosed, QueuesGrow,
         ApplyBatch, Fold, Append, LostEvents;
    var n := LoseRuntime(s, l, now, storeOk);
    if n != s {
      var batch := LostEvents(l, s.store.durable[l.id], now).value;
      LostClosing(l, s.store.durable[l.id], now);
      AppendEffect(s, batch, storeOk);
      FinishEffect(s.store.durable, |s.store.journal|, batch, l, n.store.durable);
      assert LeaseAt(s.runs.live, l.id).None?;
      LostKeepsCore(s, n, l);
    }
  }

  // ---- Close ----

  lemma ClosureKeepsCore(s: State, id: Id, storeOk: bool)
    requires CoreInv(s)
    ensures CoreInv(AppendClosure(s, id, storeOk))
  {
    hide CoreInv, Append;
    if Append(s, [ResumabilityClosed(id)], storeOk).Some? { QuietAppendKeepsCore(s, ResumabilityClosed(id), storeOk); }
  }

  lemma ForeignStepTracks(s: State, n: State)
    requires TrackInv(s) && TokInv(s) && n.stop == s.stop && n.tables == s.tables && n.nextToken == s.nextToken && n.guards == s.guards
    requires n.runs == s.runs.(lost := n.runs.lost) && n.post == s.post.(attention := n.post.attention)
    ensures TrackInv(n) && TokInv(n)
  {
    hide ActiveIn, StartsIn, WorkIn, ReceiptsIn, QuietsIn, SteeringIn, ModelsIn, SettlementsIn, WatchesIn, Minted;
  }

  /** Closing, wakes and forgotten runs are nobody else's business. */
  lemma ForeignStepKeepsCore(s: State, n: State)
    requires CoreInv(s) && n == s.(runs := s.runs.(lost := n.runs.lost), post := s.post.(attention := n.post.attention), closing := n.closing)
    ensures CoreInv(n)
  {
    hide TrackInv, TokInv, JournalInv, BindInv, ResInv, StopShape, SettleInv, IndexExact, InUse;
    ForeignStepTracks(s, n);
  }

  lemma StopKeepsCore(s: State, x: StopStep)
    requires CoreInv(s)
    ensures CoreInv(NextStop(s, x))
  {
    hide CoreInv, StopSubtree, RecoverStopped, CompleteStop, Restart, LoseRuntime, ForgetLost, BeginClosing, AppendClosure, OpenAttention, ForgetAttention;
    match x
    case DoStopSubtree(a, id, c, ok) => StopSubtreeKeepsCore(s, a, id, c, ok);
    case DoRecoverStopped(l, now, ok) => RecoverStoppedKeepsCore(s, l, now, ok);
    case DoCompleteStop(e, ok) => CompleteStopKeepsCore(s, e, ok);
    case DoRestart(w) => RestartKeepsCore(s, w);
    case DoLoseRuntime(l, now, ok) => LoseRuntimeKeepsCore(s, l, now, ok);
    case DoCloseResumability(a, id, ok) => ClosureKeepsCore(s, id, ok);
    case DoCloseUnrestorable(id, ok) => ClosureKeepsCore(s, id, ok);
    case _ => ForeignStepKeepsCore(s, NextStop(s, x));
  }
}
