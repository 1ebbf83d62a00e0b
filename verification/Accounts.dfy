/** No run is orphaned: an open run is bound to a lease or still among the lost, whatever happens. */
module Accounts {
  import opened Types
  import opened Tree
  import opened Journal
  import opened JournalLaws
  import opened State
  import opened Settle
  import opened Finishing
  import opened Starting
  import opened Claims
  import opened Delivering
  import opened Stopping
  import opened Fences
  import opened Machine
  import opened Effects
  import opened Invariants
  import opened ClaimKept
  import opened StartKept
  import opened Writes

  /** A lease moves only when its run is over. */
  ghost predicate Ends(s: State, n: State) {
    && n.runs.lost == s.runs.lost
    && forall i :: LeaseAt(n.runs.live, i) == LeaseAt(s.runs.live, i) || (i in n.store.durable && !n.store.durable[i].open)
  }

  lemma SameLeasesEnd(s: State, n: State)
    requires n.runs.lost == s.runs.lost && SameLeases(s.runs.live, n.runs.live)
    ensures Ends(s, n)
  {
  }

  lemma CalmAccounts(s: State, n: State)
    requires Accounted(s.runs, s.store.durable) && Ends(s, n) && Calmer(s.store.durable, n.store.durable)
    ensures Accounted(n.runs, n.store.durable)
  {
    hide LeaseAt, ShapeOf;
  }

  // ---- Finishes ----

  lemma FinishWithEnds(s: State, l: Lease, batch: seq<Event>, storeOk: bool, latch: Latch)
    requires JournalInv(s.store.journal, s.store.durable) && ExactLease(s, l) && ClosingBatch(batch, l)
    ensures Ends(s, FinishWith(s, l, batch, storeOk, latch))
  {
    hide WellFormed, ClosingBatch, ApplyBatch, Fold, SteersReleased, EvidenceGrows, SameWaiters, OnlyGeneration, OnlyRunEnds, QueuesGrow, ShapeOf, UntrackGeneration,
         KeptSettlements, KeptSteering, KeptModels;
    var r := Append(s, batch, storeOk);
    if r.Some? {
      AppendEffect(s, batch, storeOk);
      FinishEffect(s.store.durable, |s.store.journal|, batch, l, r.value.store.durable);
    }
  }

  lemma FinishStoppedEnds(s: State, l: Lease, packet: Option<Packet>, endedAt: nat, storeOk: bool, latch: Latch)
    requires JournalInv(s.store.journal, s.store.durable) && ExactLease(s, l)
    ensures Ends(s, FinishStopped(s, l, packet, endedAt, storeOk, latch))
  {
    hide JournalInv, FinishWith, ClosingBatch, ExactLease, StoppedFinishEvent, Ends;
    StoppedClosing(l, packet, endedAt);
    FinishWithEnds(s, l, [StoppedFinishEvent(l, packet, endedAt)], storeOk, latch);
  }

  lemma FinishGenerationEnds(s: State, l: Lease, finish: Finish, authorized: bool, now: nat, storeOk: bool)
    requires JournalInv(s.store.journal, s.store.durable)
    ensures Ends(s, FinishGeneration(s, l, finish, authorized, now, storeOk))
  {
    hide JournalInv, FinishWith, ClosingBatch, FinishStopped, FinalizationReady, GenerationEvents, Ends, SteersReleased, EvidenceGrows, SameWaiters, OnlyGeneration,
         OnlyRunEnds;
    SameLeasesEnd(s, s);
    if ExactLease(s, l) {
      var a := s.store.durable[l.id];
      var endedAt := if finish.endedAt != 0 then finish.endedAt else now;
      FinishStoppedEnds(s, l, finish.packet, endedAt, storeOk, LatchTriple);
      if a.phase == Running || (a.phase == Settling && a.prepared.Some?) {
        GenerationClosing(a, l, finish, endedAt);
        FinishWithEnds(s, l, GenerationEvents(a, l, finish, endedAt), storeOk, LatchTriple);
      }
    }
  }

  lemma FinishAccounts(s: State, x: FinishStep)
    requires JournalInv(s.store.journal, s.store.durable) && Accounted(s.runs, s.store.durable)
    ensures var n := NextFinish(s, x); Accounted(n.runs, n.store.durable)
  {
    hide JournalInv, Accounted, Calmer, QueuesGrow, Wrote, FinishGeneration, BeginFinalization, CompleteSettlement, PrepareNoAction, RequireRecovery,
         ReportQuiesced, AdmitReportWork, RecordNoAction, RecordTerminalSeen, NoActionEligible, Ends, FinishNoAction;
    var n := NextFinish(s, x);
    if x.DoFinishGeneration? { FinishGenerationEnds(s, x.lease, x.finish, false, x.now, x.storeOk); }
    else if x.DoFinishNoAction? { NoActionEnds(s, x.token, x.now, x.storeOk); }
    else { SameLeasesEnd(s, n); }
    if x.DoFinishNoAction? { FinishNoActionWrites(s, x.token, x.now, x.storeOk); } else { FinishTame(s, x); }
    CalmAccounts(s, n);
  }

  lemma NoActionEnds(s: State, t: Token, now: nat, storeOk: bool)
    requires JournalInv(s.store.journal, s.store.durable)
    ensures Ends(s, FinishNoAction(s, t, now, storeOk))
  {
    hide JournalInv, FinishGeneration, Ends, SteersReleased, EvidenceGrows, SameWaiters, OnlyGeneration, OnlyRunEnds;
    SameLeasesEnd(s, s);
    if NoActionEligible(s, t, true) {
      var l := s.tables.settlements[t].lease;
      var fallback := s.runs.live[l.id].binding.value.evidence.fallback;
      if fallback.Some? {
        FinishGenerationEnds(s, l, fallback.value, true, now, storeOk);
        FinishGenerationEnds(s, l, FinishOf(Completed, CompletedNoAction, AttentionConsumed).(endedAt := fallback.value.endedAt), true, now, storeOk);
      }
    }
  }

  // ---- Starts ----

  lemma EndsVia(s: State, m: State, n: State)
    requires m.store == s.store && m.runs.lost == s.runs.lost && SameLeases(s.runs.live, m.runs.live) && Ends(m, n)
    ensures Ends(s, n)
  {
  }

  lemma EndsThen(s: State, m: State, n: State)
    requires Ends(s, m) && n.store == m.store && n.runs.lost == m.runs.lost && SameLeases(m.runs.live, n.runs.live)
    ensures Ends(s, n)
  {
  }

  lemma CompleteInputEnds(s: State, t: Token, committed: bool, failure: Finish, now: nat, storeOk: bool)
    requires JournalInv(s.store.journal, s.store.durable)
    ensures Ends(s, CompleteStartInput(s, t, committed, failure, now, storeOk))
  {
    hide JournalInv, FinishWith, FinishStopped, ClosingBatch, StartFailureEvents, Ends, SteersReleased, EvidenceGrows, SameWaiters, OnlyGeneration, OnlyRunEnds;
    SameLeasesEnd(s, s);
    if t in s.runs.inputs && ExactLease(s, s.runs.inputs[t]) {
      var l := s.runs.inputs[t];
      var taken := Taken(s, t);
      TakenKeepsLease(s, t);
      assert SameLeases(s.runs.live, taken.runs.live);
      SameLeasesEnd(s, taken);
      StartFailureClosing(l, failure, now, false);
      assert StartFailureEvents(l, failure, now) + [] == StartFailureEvents(l, failure, now);
      FinishStoppedEnds(taken, l, None, now, storeOk, LatchRecovery);
      EndsVia(s, taken, FinishStopped(taken, l, None, now, storeOk, LatchRecovery));
      FinishWithEnds(taken, l, StartFailureEvents(l, failure, now), storeOk, LatchRecovery);
      EndsVia(s, taken, FinishWith(taken, l, StartFailureEvents(l, failure, now), storeOk, LatchRecovery));
      var ready := taken.(runs := taken.runs.(live := Readied(taken.runs.live, l.id)));
      assert SameLeases(taken.runs.live, ready.runs.live);
      EndsThen(s, taken, ready);
    }
  }

  lemma FailCommittedEnds(s: State, l: Lease, failure: Finish, close: bool, forClose: Runtime, now: nat, storeOk: bool)
    requires JournalInv(s.store.journal, s.store.durable)
    ensures Ends(s, FailCommitted(s, l, failure, close, forClose, now, storeOk))
  {
    hide JournalInv, FinishWith, FinishStopped, ClosingBatch, StartFailureEvents, Ends, SteersReleased, EvidenceGrows, SameWaiters, OnlyGeneration, OnlyRunEnds;
    SameLeasesEnd(s, s);
    if ExactLease(s, l) {
      var rest := if close then [ResumabilityClosed(l.id)] else [];
      StartFailureClosing(l, failure, now, close);
      FinishWithEnds(s, l, StartFailureEvents(l, failure, now) + rest, storeOk, LatchRecovery);
      FinishStoppedEnds(s, l, None, now, storeOk, LatchRecovery);
      var next := FinishStopped(s, l, None, now, storeOk, LatchRecovery);
      var empty := next.(runs := next.runs.(live := Emptied(next.runs.live, l.id)));
      assert SameLeases(next.runs.live, empty.runs.live);
      EndsThen(s, next, empty);
    }
  }

  lemma OpenedAccounts(s: State, n: State, t: Token)
    requires Accounted(s.runs, s.store.durable) && Committed(s, n, t)
    ensures Accounted(n.runs, n.store.durable)
  {
    hide JournalInv, ShapeOf, AddChildEdge, UntrackStart;
  }

  lemma StartAccounts(s: State, x: StartStep)
    requires JournalInv(s.store.journal, s.store.durable) && Accounted(s.runs, s.store.durable)
    ensures var n := NextStart(s, x); Accounted(n.runs, n.store.durable)
  {
    hide JournalInv, Accounted, Calmer, QueuesGrow, Wrote, Committed, CommitStart, ReserveCreate, ReserveStart, ReserveAttention, ReserveOwedAttention,
         RegisterWaiter, ReleaseReservation, AttachRuntime, AttachIdleRuntime, BeginStartInput, CompleteStartInput, FailCommitted, Ends;
    var n := NextStart(s, x);
    StartTame(s, x);
    if x.DoCommitStart? {
      CommitAccounts(s, x.token, x.cancelled, x.pending, x.storeOk);
    } else {
      if x.DoCompleteStartInput? { CompleteInputEnds(s, x.token, x.committed, x.failure, x.now, x.storeOk); }
      else if x.DoFailCommitted? { FailCommittedEnds(s, x.lease, x.failure, x.close, x.forClose, x.now, x.storeOk); }
      else { SameLeasesEnd(s, n); }
      CalmAccounts(s, n);
    }
  }

  lemma CommitAccounts(s: State, t: Token, cancelled: bool, pending: set<nat>, storeOk: bool)
    requires JournalInv(s.store.journal, s.store.durable) && Accounted(s.runs, s.store.durable)
    ensures var n := CommitStart(s, t, cancelled, pending, storeOk); Accounted(n.runs, n.store.durable)
  {
    hide JournalInv, Committed, CommitRefused, StartEvents, StartedLive, AddChildEdge, UntrackStart, Append, SameSteers, OnlyStarts;
    if t in s.runs.reservations && !CommitRefused(s, s.runs.reservations[t], cancelled) && Append(s, StartEvents(s.runs.reservations[t]), storeOk).Some? {
      CommitLands(s, t, cancelled, pending, storeOk);
      OpenedAccounts(s, CommitStart(s, t, cancelled, pending, storeOk), t);
    }
  }

  // ---- The rest ----

  lemma DeliverAccounts(s: State, x: DeliverStep)
    requires JournalInv(s.store.journal, s.store.durable) && Accounted(s.runs, s.store.durable)
    ensures var n := NextDeliver(s, x); Accounted(n.runs, n.store.durable)
  {
    hide JournalInv, Accounted, Calmer, QueuesGrow, Wrote, PostUpdate, PlanDelivery, BeginDelivery, CompleteDelivery, LeaveForRetry, HoldClaim, DropClaim,
         WithdrawWaiter, DropStoppedWaiter, AnswerWaiter, SameWork;
    var n := NextDeliver(s, x);
    if x.DoCompleteDelivery? {
      CompleteDeliveryWrites(s, x.token, x.committed, x.wake, x.storeOk);
      NothingWritten(s, s);
      if n.store != s.store { SameWorkIsCalmer(s.store.durable, n.store.durable); }
    } else {
      DeliverTame(s, x);
    }
    SameLeasesEnd(s, n);
    CalmAccounts(s, n);
  }

  lemma RecoverAccounts(s: State, l: Lease, now: nat, storeOk: bool)
    requires JournalInv(s.store.journal, s.store.durable)
    ensures Ends(s, RecoverStopped(s, l, now, storeOk))
  {
    hide JournalInv, FinishStopped, Ends;
    SameLeasesEnd(s, s);
    if ExactLease(s, l) { FinishStoppedEnds(s, l, None, now, storeOk, LatchNothing); }
  }

  lemma StopAccounts(s: State, x: StopStep)
    requires JournalInv(s.store.journal, s.store.durable) && Accounted(s.runs, s.store.durable)
    ensures var n := NextStop(s, x); Accounted(n.runs, n.store.durable)
  {
    hide JournalInv, Calmer, QueuesGrow, Wrote, StopSubtree, RecoverStopped, CompleteStop, LoseRuntime, BeginClosing, CloseResumability,
         CloseUnrestorable, OpenAttention, ForgetAttention, SameWork, Ends, RestoredStop, DerivedIndex, OwedWakes;
    var n := NextStop(s, x);
    if !x.DoRestart? && !x.DoForgetLost? {
      if x.DoStopSubtree? {
        StopSubtreeWrites(s, x.actor, x.target, x.allowClosing, x.storeOk);
        NothingWritten(s, s);
        if n != s { SameWorkIsCalmer(s.store.durable, n.store.durable); }
      } else if x.DoCompleteStop? {
        CompleteStopWrites(s, x.evidenceClean, x.storeOk);
        NothingWritten(s, s);
        if n != s { SameWorkIsCalmer(s.store.durable, n.store.durable); }
      } else {
        StopStepTame(s, x);
      }
      if x.DoRecoverStopped? { RecoverAccounts(s, x.lease, x.now, x.storeOk); } else { SameLeasesEnd(s, n); }
      CalmAccounts(s, n);
    }
  }

  lemma FenceFrame(s: State, x: FenceStep)
    ensures var n := NextFence(s, x);
            && n.store == s.store && n.post == s.post && n.stop == s.stop && n.tables == s.tables
            && n.runs == s.runs.(live := n.runs.live) && SameLeases(s.runs.live, n.runs.live)
  {
    hide BeginHandoff, EndHandoff, BeginRestore, EndRestore, HoldRestore, ReleaseHold, ClaimReclamation, ClaimIdleRelease, CompleteReclamation,
         AbortReclamation;
  }

  lemma StepAccounts(s: State, step: Step)
    requires JournalInv(s.store.journal, s.store.durable) && Accounted(s.runs, s.store.durable)
    ensures var n := Next(s, step); Accounted(n.runs, n.store.durable)
  {
    hide JournalInv, Accounted, NextStart, NextFinish, NextClaim, NextDeliver, NextStop, NextFence;
    match step
    case Starts(x) => StartAccounts(s, x);
    case Finishes(x) => FinishAccounts(s, x);
    case ClaimsWork(x) =>
      ClaimFrame(s, x);
      QuietAccounts(s, Next(s, step));
    case Delivers(x) => DeliverAccounts(s, x);
    case Stops(x) => StopAccounts(s, x);
    case FencesOff(x) =>
      FenceFrame(s, x);
      QuietAccounts(s, Next(s, step));
  }

  lemma QuietAccounts(s: State, n: State)
    requires Accounted(s.runs, s.store.durable) && n.store == s.store && n.runs.lost == s.runs.lost && SameLeases(s.runs.live, n.runs.live)
    ensures Accounted(n.runs, n.store.durable)
  {
    NothingWritten(s, n);
    SameLeasesEnd(s, n);
    CalmAccounts(s, n);
  }
}
