/** Ending a generation, and everything else a finishing step does, keeps the core invariants. */
module FinishKept {
  import opened Types
  import opened Tree
  import opened Journal
  import opened JournalLaws
  import opened State
  import opened Settle
  import opened Finishing
  import opened Effects
  import opened Invariants

  // ---- Releasing a generation ----

  lemma ReleasedLeases(live: map<Id, Live>, l: Lease)
    requires LeaseAt(live, l.id) == Some(l)
    ensures forall i :: LeaseAt(live[l.id := Unbound(live[l.id])], i) == if i == l.id then None else LeaseAt(live, i)
  {
  }

  lemma ReleasedBindings(live: map<Id, Live>, live': map<Id, Live>, d: Durable, d': Durable, l: Lease)
    requires BindInv(live, d) && RunClosed(d, d', l)
    requires forall i :: LeaseAt(live', i) == if i == l.id then None else LeaseAt(live, i)
    ensures BindInv(live', d')
  {
  }

  lemma ReleasedBound(live: map<Id, Live>, live': map<Id, Live>, d: Durable, d': Durable, l: Lease, drive: bool)
    requires RunClosed(d, d', l) && LeaseAt(live, l.id).Some?
    requires forall i :: LeaseAt(live', i) == if i == l.id then None else LeaseAt(live, i)
    ensures Bound(live', d', drive) == Bound(live, d, drive) - {l.id}
    ensures l.id in Bound(live, d, drive) <==> (d[l.id].trigger == AttentionTrigger) == drive
  {
  }

  lemma ReleasedActive(live: map<Id, Live>, live': map<Id, Live>, d: Durable, l: Lease, members: set<Id>)
    requires BindInv(live, d)
    requires forall i :: LeaseAt(live', i) == if i == l.id then None else LeaseAt(live, i)
    requires LeaseAt(live, l.id) == Some(l)
    ensures ActiveIn(live', members) == ActiveIn(live, members) - {l}
  {
    forall k ensures k in ActiveIn(live', members) <==> k in ActiveIn(live, members) - {l} {
      if k in ActiveIn(live, members) { assert LeaseAt(live, k.id) == Some(k); }
      if k in ActiveIn(live', members) { assert LeaseAt(live', k.id) == Some(k); }
    }
  }

  lemma ReleasedSettlements(s: State, l: Lease, live': map<Id, Live>)
    requires SettleInv(s.tables.settlements, s.runs.live) && LeaseAt(s.runs.live, l.id) == Some(l)
    requires forall i :: LeaseAt(live', i) == if i == l.id then None else LeaseAt(s.runs.live, i)
    ensures SettleInv(KeptSettlements(s, l.id), live')
    ensures SettlementsExact(s.stop, s.tables.settlements) ==> SettlementsExact(UntrackGeneration(s, l), KeptSettlements(s, l.id))
    ensures KeptSettlements(s, l.id).Keys <= s.tables.settlements.Keys
  {
    forall t | t in s.tables.settlements && s.tables.settlements[t].lease.id == l.id ensures s.tables.settlements[t].lease == l {
    }
  }

  lemma ReleasedSteering(s: State, id: Id, stop: Option<StopState>)
    requires SteeringExact(s.stop, s.tables.steering) && OnlyGeneration(s.stop, stop)
    ensures SteeringExact(stop, KeptSteering(s, id)) && KeptSteering(s, id).Keys <= s.tables.steering.Keys
  {
  }

  lemma ReleasedModels(s: State, id: Id, stop: Option<StopState>)
    requires ModelsExact(s.stop, s.tables.models) && OnlyGeneration(s.stop, stop)
    ensures ModelsExact(stop, KeptModels(s, id)) && KeptModels(s, id).Keys <= s.tables.models.Keys
  {
  }

  lemma ReleasedStopShape(stop: Option<StopState>, stop': Option<StopState>, d: Durable, d': Durable, l: Lease)
    requires StopShape(stop, d) && OnlyGeneration(stop, stop') && RunClosed(d, d', l)
    ensures StopShape(stop', d')
  {
  }

  /** The state just after a finish batch landed. */
  ghost predicate Landed(s: State, a: State, l: Lease) {
    && a == s.(store := s.store.(journal := a.store.journal, durable := a.store.durable))
    && JournalInv(a.store.journal, a.store.durable) && RunClosed(s.store.durable, a.store.durable, l)
  }

  lemma ReleaseTracks(s: State, a: State, l: Lease)
    requires BindInv(s.runs.live, s.store.durable) && SettleInv(s.tables.settlements, s.runs.live)
    requires LeaseAt(s.runs.live, l.id) == Some(l) && Landed(s, a, l) && TrackInv(s) && TokInv(s)
    ensures TrackInv(ReleaseGeneration(a, l)) && TokInv(ReleaseGeneration(a, l))
  {
    hide JournalInv, ActiveIn, StartsIn, WorkIn, ReceiptsIn, QuietsIn, SteeringIn, ModelsIn, SettlementsIn, WatchesIn, RunClosed, BindInv,
         SettleInv, Unbound, KeptSettlements, KeptSteering, KeptModels;
    var n := ReleaseGeneration(a, l);
    LandedPlace(s, a, l);
    ReleasedLeases(s.runs.live, l);
    ReleasedSettlements(a, l, n.runs.live);
    ReleasedSteering(a, l.id, n.stop);
    ReleasedModels(a, l.id, n.stop);
    if s.stop.Some? { ReleasedActive(s.runs.live, n.runs.live, s.store.durable, l, s.stop.value.members); }
  }

  lemma ReleaseKeepsCore(s: State, a: State, l: Lease)
    requires CoreInv(s) && LeaseAt(s.runs.live, l.id) == Some(l) && Landed(s, a, l)
    ensures CoreInv(ReleaseGeneration(a, l))
  {
    hide JournalInv, TrackInv, TokInv, RunClosed, BindInv, SettleInv, Unbound, KeptSettlements, KeptSteering, KeptModels, StopShape,
         UntrackGeneration, ResInv, IndexExact, Slots, Bound;
    var n := ReleaseGeneration(a, l);
    var d, d' := s.store.durable, a.store.durable;
    LandedPlace(s, a, l);
    ReleasedLeases(s.runs.live, l);
    ReleasedBindings(s.runs.live, n.runs.live, d, d', l);
    ReleasedSettlements(a, l, n.runs.live);
    ReleasedStopShape(s.stop, n.stop, d, d', l);
    ReleasedBound(s.runs.live, n.runs.live, d, d', l, false);
    ReleasedBound(s.runs.live, n.runs.live, d, d', l, true);
    ReleaseTracks(s, a, l);
    SameReservations(s.runs.reservations, d, d');
  }

  lemma LandedPlace(s: State, a: State, l: Lease)
    requires Landed(s, a, l)
    ensures l.id in s.store.durable && l.id in a.store.durable
    ensures a.store.durable[l.id].trigger == s.store.durable[l.id].trigger
    ensures a.store.durable.Keys == s.store.durable.Keys && ShapeOf(a.store.durable) == ShapeOf(s.store.durable)
  {
    hide JournalInv;
  }

  // ---- Finishing ----

  lemma LatchKeepsLeases(live: map<Id, Live>, id: Id, latch: Latch)
    requires id in live
    ensures SameLeases(live, live[id := Latched(live[id], latch)])
  {
  }

  /** A step that only touches flags of live runtimes keeps everything. */
  lemma LiveStepKeepsCore(s: State, n: State)
    requires CoreInv(s) && n == s.(runs := s.runs.(live := n.runs.live)) && SameLeases(s.runs.live, n.runs.live)
    ensures CoreInv(n)
  {
    hide JournalInv, WellFormed, BindInv, ResInv, StopShape, SettleInv, CapInv, IndexExact, SameLeases;
    LiveStepTracks(s, n);
    SameRunsReflexive(s.store.durable);
    SteadyStep(s, n);
  }

  lemma LiveStepTracks(s: State, n: State)
    requires TrackInv(s) && TokInv(s) && n == s.(runs := s.runs.(live := n.runs.live)) && SameLeases(s.runs.live, n.runs.live)
    ensures TrackInv(n) && TokInv(n)
  {
    hide ActiveIn, StartsIn, WorkIn, ReceiptsIn, QuietsIn, SteeringIn, ModelsIn, SettlementsIn, WatchesIn, SameLeases, Minted;
    if s.stop.Some? { SameActive(s.runs.live, n.runs.live, s.stop.value.members); }
  }

  lemma FinishWithKeepsCore(s: State, l: Lease, batch: seq<Event>, storeOk: bool, latch: Latch)
    requires CoreInv(s) && ExactLease(s, l) && ClosingBatch(batch, l)
    ensures CoreInv(FinishWith(s, l, batch, storeOk, latch))
  {
    hide WellFormed, BindInv, ResInv, StopShape, SettleInv, CapInv, IndexExact, TrackInv, TokInv, ClosingBatch, RunClosed, QueuesGrow,
         ApplyBatch, Fold, ReleaseGeneration;
    var r := Append(s, batch, storeOk);
    if r.Some? {
      AppendEffect(s, batch, storeOk);
      FinishEffect(s.store.durable, |s.store.journal|, batch, l, r.value.store.durable);
      ReleaseKeepsCore(s, r.value, l);
    } else {
      LatchKeepsLeases(s.runs.live, l.id, latch);
      LiveStepKeepsCore(s, FinishWith(s, l, batch, storeOk, latch));
    }
  }

  lemma FinishStoppedKeepsCore(s: State, l: Lease, packet: Option<Packet>, endedAt: nat, storeOk: bool, latch: Latch)
    requires CoreInv(s) && ExactLease(s, l)
    ensures CoreInv(FinishStopped(s, l, packet, endedAt, storeOk, latch))
  {
    hide CoreInv, FinishWith, ClosingBatch;
    StoppedClosing(l, packet, endedAt);
    FinishWithKeepsCore(s, l, [StoppedFinishEvent(l, packet, endedAt)], storeOk, latch);
  }

  lemma FinishGenerationKeepsCore(s: State, l: Lease, finish: Finish, authorized: bool, now: nat, storeOk: bool)
    requires CoreInv(s)
    ensures CoreInv(FinishGeneration(s, l, finish, authorized, now, storeOk))
  {
    hide CoreInv, FinishWith, ClosingBatch, FinalizationReady, GenerationEvents, FinishStopped;
    if ExactLease(s, l) {
      var a := s.store.durable[l.id];
      var endedAt := if finish.endedAt != 0 then finish.endedAt else now;
      if a.phase == Running || (a.phase == Settling && a.prepared.Some?) {
        GenerationClosing(a, l, finish, endedAt);
        FinishWithKeepsCore(s, l, GenerationEvents(a, l, finish, endedAt), storeOk, LatchTriple);
      } else if a.phase == Stopping {
        FinishStoppedKeepsCore(s, l, finish.packet, endedAt, storeOk, LatchTriple);
      }
    }
  }

  lemma FinishNoActionKeepsCore(s: State, t: Token, now: nat, storeOk: bool)
    requires CoreInv(s)
    ensures CoreInv(FinishNoAction(s, t, now, storeOk))
  {
    hide CoreInv, FinishGeneration;
    if NoActionEligible(s, t, true) {
      var l := s.tables.settlements[t].lease;
      var e := s.runs.live[l.id].binding.value.evidence;
      if e.fallback.Some? {
        FinishGenerationKeepsCore(s, l, if s.store.durable[l.id].phase == Stopping then e.fallback.value
                                        else FinishOf(Completed, CompletedNoAction, AttentionConsumed).(endedAt := e.fallback.value.endedAt),
                                  true, now, storeOk);
      }
    }
  }

  // ---- Settlement claims ----

  lemma BeginFinalizationTracks(s: State, l: Lease, mode: Mode, known: bool, failed: bool)
    requires SettlementsExact(s.stop, s.tables.settlements) && Minted(s.tables.settlements.Keys, s.nextToken)
    requires ActiveExact(s.stop, s.runs.live) && SettleInv(s.tables.settlements, s.runs.live)
    ensures var n := BeginFinalization(s, l, mode, known, failed);
            && SettlementsExact(n.stop, n.tables.settlements) && Minted(n.tables.settlements.Keys, n.nextToken)
            && SettleInv(n.tables.settlements, s.runs.live)
  {
    hide FinalizationMode, HasSteerFor, HasSettlement;
    var n := BeginFinalization(s, l, mode, known, failed);
    if n != s && s.stop.Some? && l.id in s.stop.value.members {
      assert LeaseAt(s.runs.live, l.id) == Some(l);
      assert l in ActiveIn(s.runs.live, s.stop.value.members);
    }
  }

  lemma SettlementRemoved(stop: Option<StopState>, table: map<Token, SettlementClaim>, t: Token)
    requires SettlementsExact(stop, table)
    ensures SettlementsExact(UntrackSettlement(stop, t), table - {t})
  {
  }

  /** A step that only adds or drops settlement claims keeps the rest. */
  lemma SettlementStepKeepsCore(s: State, n: State)
    requires CoreInv(s) && n == s.(tables := s.tables.(settlements := n.tables.settlements), stop := n.stop, nextToken := n.nextToken)
    requires OnlySettlements(s.stop, n.stop) && s.nextToken <= n.nextToken
    requires SettlementsExact(n.stop, n.tables.settlements) && Minted(n.tables.settlements.Keys, n.nextToken)
    requires SettleInv(n.tables.settlements, n.runs.live)
    ensures CoreInv(n)
  {
    hide ActiveIn, StartsIn, WorkIn, ReceiptsIn, QuietsIn, SteeringIn, ModelsIn, SettlementsIn, WatchesIn, WellFormed,
         BindInv, ResInv, SettleInv, InUse, IndexExact, SameRuns;
    SameRunsReflexive(s.store.durable);
    SameStopShape(s.stop, n.stop, s.store.durable, n.store.durable);
  }

  lemma BeginFinalizationKeepsCore(s: State, l: Lease, mode: Mode, known: bool, failed: bool)
    requires CoreInv(s)
    ensures CoreInv(BeginFinalization(s, l, mode, known, failed))
  {
    BeginFinalizationTracks(s, l, mode, known, failed);
    hide BeginFinalization, JournalInv, BindInv, ResInv, SettleInv, CapInv, IndexExact, StopShape;
    SettlementStepKeepsCore(s, BeginFinalization(s, l, mode, known, failed));
  }

  /** A step that only writes the journal, and moves no run, keeps everything. */
  lemma StoreStepKeepsCore(s: State, n: State)
    requires CoreInv(s) && n == s.(store := s.store.(journal := n.store.journal, durable := n.store.durable))
    requires JournalInv(n.store.journal, n.store.durable) && SameRuns(s.store.durable, n.store.durable)
    ensures CoreInv(n)
  {
    hide ActiveIn, StartsIn, WorkIn, ReceiptsIn, QuietsIn, SteeringIn, ModelsIn, SettlementsIn, WatchesIn, Minted,
         JournalInv, BindInv, ResInv, StopShape, SettleInv, CapInv, IndexExact, SameRuns;
    SteadyStep(s, n);
  }

  lemma QuietAppendKeepsCore(s: State, e: Event, storeOk: bool)
    requires CoreInv(s) && (e.TerminalPrepared? || e.ResumabilityClosed? || e.UpdatePosted?) && Append(s, [e], storeOk).Some?
    ensures CoreInv(Append(s, [e], storeOk).value)
  {
    hide WellFormed, BindInv, ResInv, StopShape, SettleInv, CapInv, IndexExact, TrackInv, TokInv, SameRuns, QueuesGrow, Apply, Append, Fold;
    AppendEffect(s, [e], storeOk);
    OneEvent(s.store.durable, |s.store.journal|, e);
    QuietEffect(s.store.durable, |s.store.journal| + 1, e, Append(s, [e], storeOk).value.store.durable);
    StoreStepKeepsCore(s, Append(s, [e], storeOk).value);
  }

  lemma CompleteSettlementKeepsCore(s: State, t: Token, packet: Option<Packet>, storeOk: bool)
    requires CoreInv(s)
    ensures CoreInv(CompleteSettlement(s, t, packet, storeOk))
  {
    hide Under, Fenced, ShapeOf, Reclaimed, JournalInv, BindInv, ResInv, CapInv, IndexExact, StopShape, UntrackSettlement, Append,
         ActiveExact, StartsExact, WorkExact, ReceiptsExact, QuietsExact, SteeringExact, ModelsExact, EnqueuesExact, WatchesExact, SettlementsExact;
    var n := CompleteSettlement(s, t, packet, storeOk);
    if t in s.tables.settlements && s.tables.settlements[t].mode == Ordinary && ClaimReady(s, t) && Admitted(s, s.tables.settlements[t].lease) {
      var l := s.tables.settlements[t].lease;
      var e := TerminalPrepared(l.id, l.generation, if packet.Some? then packet.value else MISSING);
      var r := Append(s, [e], storeOk);
      if r.Some? {
        QuietAppendKeepsCore(s, e, storeOk);
        SettlementRemoved(s.stop, s.tables.settlements, t);
        SettlementStepKeepsCore(r.value, n);
      } else {
        LatchKeepsLeases(s.runs.live, l.id, LatchTriple);
        LiveStepKeepsCore(s, n);
      }
    }
  }

  lemma FinishKeepsCore(s: State, x: FinishStep)
    requires CoreInv(s)
    ensures CoreInv(NextFinish(s, x))
  {
    hide CoreInv, FinishGeneration, BeginFinalization, CompleteSettlement, FinishNoAction, PrepareNoAction, RequireRecovery, ReportQuiesced,
         AdmitReportWork, RecordNoAction, RecordTerminalSeen, SameLeases;
    match x
    case DoFinishGeneration(l, f, now, ok) => FinishGenerationKeepsCore(s, l, f, false, now, ok);
    case DoBeginFinalization(l, m, k, e) => BeginFinalizationKeepsCore(s, l, m, k, e);
    case DoCompleteSettlement(t, p, ok) => CompleteSettlementKeepsCore(s, t, p, ok);
    case DoFinishNoAction(t, now, ok) => FinishNoActionKeepsCore(s, t, now, ok);
    case _ => LiveStepKeepsCore(s, NextFinish(s, x));
  }
}
