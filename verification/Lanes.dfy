/** While a lane handoff is held, nothing runs, starts or is restored beneath it, and held roots never nest. */
module Lanes {
  import opened Types
  import opened Tree
  import opened Journal
  import opened JournalLaws
  import opened State
  import opened Starting
  import opened Claims
  import opened Delivering
  import opened Stopping
  import opened Finishing
  import opened Fences
  import opened Machine
  import opened Effects
  import opened Invariants
  import opened StartKept
  import opened Writes
  import opened ClaimKept

  ghost predicate NoOpenRun(handoffs: set<Id>, d: Durable) {
    forall r, i | r in handoffs && i in d && Under(ShapeOf(d), i, r) :: !d[i].open
  }

  ghost predicate NoStart(handoffs: set<Id>, res: map<Token, Reservation>, d: Durable) {
    forall r, t | r in handoffs && t in res :: !Under(ShapeOf(d), res[t].id, r) && (res[t].create ==> !Under(ShapeOf(d), res[t].parent, r))
  }

  ghost predicate NoRestore(handoffs: set<Id>, restores: map<Id, nat>, d: Durable) {
    forall r, i | r in handoffs && i in restores :: !Under(ShapeOf(d), i, r) || restores[i] == 0
  }

  ghost predicate LaneInv(g: Guards, res: map<Token, Reservation>, d: Durable) {
    && NO_ID !in g.laneHandoffs
    && NoOpenRun(g.laneHandoffs, d) && NoStart(g.laneHandoffs, res, d) && NoRestore(g.laneHandoffs, g.laneRestores, d)
    && Antichain(g.laneHandoffs, d)
  }

  /** Every reservation of `b` is one of `a`. */
  ghost predicate Fewer(b: map<Token, Reservation>, a: map<Token, Reservation>) {
    forall t | t in b :: t in a && b[t].id == a[t].id && b[t].create == a[t].create && b[t].parent == a[t].parent
  }

  lemma CalmLane(g: Guards, res: map<Token, Reservation>, res': map<Token, Reservation>, d: Durable, d': Durable)
    requires LaneInv(g, res, d) && Calmer(d, d') && Fewer(res', res)
    ensures LaneInv(g, res', d')
  {
    hide Under;
  }

  /** A reservation outside every handoff changes nothing for them. */
  lemma ReservedLane(g: Guards, res: map<Token, Reservation>, t: Token, r: Reservation, d: Durable)
    requires LaneInv(g, res, d)
    requires forall q | q in g.laneHandoffs :: !Under(ShapeOf(d), r.id, q) && (r.create ==> !Under(ShapeOf(d), r.parent, q))
    ensures LaneInv(g, res[t := r], d)
  {
    hide Under, ShapeOf;
  }

  /** A committed start grows the tree by a leaf at most, and opens a run outside every handoff. */
  lemma CommittedChains(s: State, n: State, t: Token, i: Id, q: Id)
    requires Committed(s, n, t) && WellFormed(s.store.durable, |s.store.journal|) && q in s.guards.laneHandoffs
    requires !LaneCovers(s, s.runs.reservations[t].id) && (s.runs.reservations[t].create ==> !LaneCovers(s, s.runs.reservations[t].parent))
    ensures Under(ShapeOf(n.store.durable), i, q) ==> Under(ShapeOf(s.store.durable), i, q) && i != s.runs.reservations[t].id
    ensures i in s.store.durable && Under(ShapeOf(s.store.durable), i, q) ==> i != s.runs.reservations[t].id
  {
    hide JournalInv, AggregateOk, StartedLive, ShapeOf;
    var r := s.runs.reservations[t];
    var shape := ShapeOf(s.store.durable);
    RootIsNoDelegate(s.store.durable, |s.store.journal|);
    if r.create {
      var node := Node(r.parent, |s.store.journal| + 1);
      NewLeafIsYoungest(s.store.durable, |s.store.journal|, r.parent);
      ShapeKeys(s.store.durable);
      GrowthAddsLeaf(shape, r.id, node, q);
      if i != r.id { GrowthKeepsChains(shape, r.id, node, i, q); }
    }
  }

  lemma ShapeKeys(d: Durable)
    ensures ShapeOf(d).Keys == d.Keys
  {
  }

  lemma NewLeafIsYoungest(d: Durable, n: nat, p: Id)
    requires WellFormed(d, n)
    ensures p in d ==> p in ShapeOf(d) && ShapeOf(d)[p].born < n + 1
  {
    if p in d { assert AggregateOk(p, d[p], n); }
  }

  lemma CommittedLane(s: State, n: State, t: Token)
    requires Committed(s, n, t) && WellFormed(s.store.durable, |s.store.journal|)
    requires LaneInv(s.guards, s.runs.reservations, s.store.durable)
    requires !LaneCovers(s, s.runs.reservations[t].id) && (s.runs.reservations[t].create ==> !LaneCovers(s, s.runs.reservations[t].parent))
    ensures LaneInv(n.guards, n.runs.reservations, n.store.durable)
  {
    hide JournalInv, WellFormed, StartedLive, Under, LaneCovers, ShapeOf;
    forall q, i | q in s.guards.laneHandoffs
      ensures Under(ShapeOf(n.store.durable), i, q) ==> Under(ShapeOf(s.store.durable), i, q) && i != s.runs.reservations[t].id
    {
      CommittedChains(s, n, t, i, q);
    }
  }

  lemma CommitStartLane(s: State, t: Token, cancelled: bool, pending: set<nat>, storeOk: bool)
    requires JournalInv(s.store.journal, s.store.durable) && LaneInv(s.guards, s.runs.reservations, s.store.durable)
    ensures var n := CommitStart(s, t, cancelled, pending, storeOk); LaneInv(n.guards, n.runs.reservations, n.store.durable)
  {
    hide Fold, WellFormed, LaneInv, Committed, Wrote, Calmer, LaneCovers, Fenced, DeliveryWork, StartEvents, StartedLive, AddChildEdge, UntrackStart, Append;
    var n := CommitStart(s, t, cancelled, pending, storeOk);
    CommitStartWrites(s, t, cancelled, pending, storeOk);
    if n.store == s.store {
      NothingWritten(s, n);
      CalmLane(s.guards, s.runs.reservations, n.runs.reservations, s.store.durable, n.store.durable);
    } else {
      CommittedLane(s, n, t);
    }
  }

  lemma UncoveredIsOutside(s: State, id: Id)
    requires !LaneCovers(s, id) && id != NO_ID
    ensures forall q | q in s.guards.laneHandoffs :: !Under(ShapeOf(s.store.durable), id, q)
  {
  }

  lemma RootIsOutside(s: State)
    requires NO_ID !in s.guards.laneHandoffs && NO_ID !in s.store.durable
    ensures forall q | q in s.guards.laneHandoffs :: !Under(ShapeOf(s.store.durable), NO_ID, q)
  {
  }

  lemma UnknownIsOutside(s: State, id: Id)
    requires id !in s.guards.laneHandoffs && id !in s.store.durable
    ensures forall q | q in s.guards.laneHandoffs :: !Under(ShapeOf(s.store.durable), id, q)
  {
  }

  lemma RootIsNoDelegate(d: Durable, n: nat)
    requires WellFormed(d, n)
    ensures NO_ID !in d
  {
    assert NO_ID !in ShapeOf(d);
  }

  lemma ReserveLane(s: State, r: Reservation)
    requires LaneInv(s.guards, s.runs.reservations, s.store.durable)
    requires forall q | q in s.guards.laneHandoffs :: !Under(ShapeOf(s.store.durable), r.id, q) && (r.create ==> !Under(ShapeOf(s.store.durable), r.parent, q))
    ensures LaneInv(s.guards, Reserve(s, r).runs.reservations, s.store.durable)
  {
    hide LaneInv, Under, ShapeOf;
    ReservedLane(s.guards, s.runs.reservations, s.nextToken + 1, r, s.store.durable);
  }

  lemma ReservingLane(s: State, x: StartStep)
    requires JournalInv(s.store.journal, s.store.durable) && LaneInv(s.guards, s.runs.reservations, s.store.durable)
    requires x.DoReserveCreate? || x.DoReserveStart? || x.DoReserveAttention? || x.DoReserveOwedAttention?
    ensures LaneInv(s.guards, NextStart(s, x).runs.reservations, s.store.durable)
  {
    hide Fold, Under, ShapeOf, LaneCovers, Reserve, Fenced, Admitted, Authorized, HasReservation, WakeEligible, IdleRestorable, DeliveryWork, ResidentAt;
    hide NoOpenRun, NoStart, NoRestore, Antichain, WellFormed;
    var n := NextStart(s, x);
    if n != s {
      if x.DoReserveCreate? {
        var parent := if x.actor.Some? then x.actor.value.id else NO_ID;
        RootIsNoDelegate(s.store.durable, |s.store.journal|);
        if parent == NO_ID { RootIsOutside(s); } else { UncoveredIsOutside(s, parent); }
        UnknownIsOutside(s, x.newId);
        ReserveLane(s, Reservation(x.newId, 1, InitialTrigger, true, parent, 0, 0));
      } else {
        var trigger := if x.DoReserveStart? then OwnerInput else AttentionTrigger;
        RestorableIsKnown(s, x);
        RootIsNoDelegate(s.store.durable, |s.store.journal|);
        UncoveredIsOutside(s, x.target);
        var generation := if x.DoReserveOwedAttention? then x.generation else s.store.durable[x.target].generation + 1;
        ReserveLane(s, Reservation(x.target, generation, trigger, false, s.store.durable[x.target].parent, if x.DoReserveAttention? then x.runtime else 0, 0));
      }
    }
  }

  lemma RestorableIsKnown(s: State, x: StartStep)
    requires x.DoReserveStart? || x.DoReserveAttention? || x.DoReserveOwedAttention?
    requires NextStart(s, x) != s
    ensures x.target in s.store.durable
  {
    hide LaneCovers, Reserve, Fenced, Admitted, Authorized, HasReservation, DeliveryWork, ResidentAt, Reclaimed;
  }

  lemma StartLane(s: State, x: StartStep)
    requires JournalInv(s.store.journal, s.store.durable) && LaneInv(s.guards, s.runs.reservations, s.store.durable)
    ensures var n := NextStart(s, x); LaneInv(n.guards, n.runs.reservations, n.store.durable)
  {
    hide JournalInv, LaneInv, ReserveCreate, ReserveStart, ReserveAttention, ReserveOwedAttention, CommitStart, AttachRuntime, AttachIdleRuntime,
         BeginStartInput, CompleteStartInput, FailCommitted, Wrote, Calmer, QueuesGrow, Moved, Committed, UntrackStart;
    var n := NextStart(s, x);
    if x.DoCommitStart? { CommitStartLane(s, x.token, x.cancelled, x.pending, x.storeOk); }
    else if x.DoReserveCreate? || x.DoReserveStart? || x.DoReserveAttention? || x.DoReserveOwedAttention? { ReservingLane(s, x); }
    else {
      StartTame(s, x);
      CalmLane(s.guards, s.runs.reservations, n.runs.reservations, s.store.durable, n.store.durable);
    }
  }

  // ---- Fences ----

  lemma BeginHandoffLane(s: State, id: Id)
    requires LaneInv(s.guards, s.runs.reservations, s.store.durable) && NO_ID !in s.store.durable
    ensures var n := BeginHandoff(s, id); LaneInv(n.guards, s.runs.reservations, s.store.durable)
  {
    var n := BeginHandoff(s, id);
    if n != s {
      QuietSubtree(s, id);
      var shape, h := ShapeOf(s.store.durable), s.guards.laneHandoffs;
      forall q | q in h ensures !Under(shape, id, q) && !Under(shape, q, id) { InSubtree(s.store.durable, q, id); }
      hide Under, ShapeOf, SubtreeBusy;
    }
  }

  lemma QuietSubtree(s: State, id: Id)
    requires !SubtreeBusy(s, Subtree(ShapeOf(s.store.durable), id)) && id != NO_ID && NO_ID !in s.store.durable
    ensures NoOpenRun({id}, s.store.durable) && NoStart({id}, s.runs.reservations, s.store.durable)
    ensures NoRestore({id}, s.guards.laneRestores, s.store.durable)
  {
    hide Under, ShapeOf, Subtree;
    forall i ensures Under(ShapeOf(s.store.durable), i, id) <==> i in Subtree(ShapeOf(s.store.durable), id) { InSubtree(s.store.durable, i, id); }
    RootOutside(s.store.durable, id);
  }

  lemma RootOutside(d: Durable, id: Id)
    requires NO_ID !in d && id != NO_ID
    ensures !Under(ShapeOf(d), NO_ID, id)
  {
  }

  lemma RestoreLane(s: State, id: Id)
    requires LaneInv(s.guards, s.runs.reservations, s.store.durable)
    ensures LaneInv(BeginRestore(s, id).guards, s.runs.reservations, s.store.durable)
    ensures LaneInv(EndRestore(s, id).guards, s.runs.reservations, s.store.durable)
  {
    if id != NO_ID && !LaneCovers(s, id) { UncoveredIsOutside(s, id); }
    hide Under, ShapeOf;
  }

  lemma FenceLane(s: State, x: FenceStep)
    requires JournalInv(s.store.journal, s.store.durable) && LaneInv(s.guards, s.runs.reservations, s.store.durable)
    ensures var n := NextFence(s, x); LaneInv(n.guards, n.runs.reservations, n.store.durable)
  {
    hide WellFormed, Fold, NoOpenRun, NoStart, NoRestore, Antichain, BeginHandoff, BeginRestore, EndRestore, HoldRestore, ReleaseHold, ClaimReclamation,
         ClaimIdleRelease, CompleteReclamation, AbortReclamation;
    RootIsNoDelegate(s.store.durable, |s.store.journal|);
    match x
    case DoBeginHandoff(id) => BeginHandoffLane(s, id);
    case DoEndHandoff(id) => EndHandoffLane(s, id);
    case DoBeginRestore(id) => RestoreLane(s, id);
    case DoEndRestore(id) => RestoreLane(s, id);
    case _ =>
  }

  lemma EndHandoffLane(s: State, id: Id)
    requires LaneInv(s.guards, s.runs.reservations, s.store.durable)
    ensures LaneInv(EndHandoff(s, id).guards, s.runs.reservations, s.store.durable)
  {
    hide Under, ShapeOf;
  }

  // ---- Every step ----

  lemma OtherStopsLane(s: State, x: StopStep)
    requires JournalInv(s.store.journal, s.store.durable) && LaneInv(s.guards, s.runs.reservations, s.store.durable)
    ensures var n := NextStop(s, x); LaneInv(n.guards, n.runs.reservations, n.store.durable)
  {
    hide JournalInv, LaneInv, StopSubtree, RecoverStopped, CompleteStop, LoseRuntime, ForgetLost, BeginClosing, CloseResumability, CloseUnrestorable,
         OpenAttention, ForgetAttention, Restart, Calmer, Wrote, QueuesGrow, SameWork;
    var n := NextStop(s, x);
    if x.DoRestart? { RestartLane(s, x.wakes); }
    else {
      if x.DoStopSubtree? {
        StopSubtreeWrites(s, x.actor, x.target, x.allowClosing, x.storeOk);
        if n == s { NothingWritten(s, n); } else { SameWorkIsCalmer(s.store.durable, n.store.durable); }
      } else if x.DoCompleteStop? {
        CompleteStopWrites(s, x.evidenceClean, x.storeOk);
        if n == s { NothingWritten(s, n); } else { SameWorkIsCalmer(s.store.durable, n.store.durable); }
      } else {
        StopStepTame(s, x);
      }
      CalmLane(s.guards, s.runs.reservations, n.runs.reservations, s.store.durable, n.store.durable);
    }
  }

  lemma RestartLane(s: State, pending: map<Id, set<nat>>)
    ensures var n := Restart(s, pending); LaneInv(n.guards, n.runs.reservations, n.store.durable)
  {
  }

  lemma DeliveringLane(s: State, x: DeliverStep)
    requires JournalInv(s.store.journal, s.store.durable) && LaneInv(s.guards, s.runs.reservations, s.store.durable)
    ensures var n := NextDeliver(s, x); LaneInv(n.guards, n.runs.reservations, n.store.durable)
  {
    hide JournalInv, LaneInv, PostUpdate, PlanDelivery, BeginDelivery, CompleteDelivery, LeaveForRetry, HoldClaim, DropClaim, WithdrawWaiter,
         DropStoppedWaiter, AnswerWaiter, Calmer, Wrote, QueuesGrow, SameWork;
    var n := NextDeliver(s, x);
    if x.DoCompleteDelivery? {
      CompleteDeliveryWrites(s, x.token, x.committed, x.wake, x.storeOk);
      if n.store == s.store { NothingWritten(s, n); } else { SameWorkIsCalmer(s.store.durable, n.store.durable); }
    } else {
      DeliverTame(s, x);
    }
    CalmLane(s.guards, s.runs.reservations, n.runs.reservations, s.store.durable, n.store.durable);
  }

  lemma FinishingLane(s: State, x: FinishStep)
    requires JournalInv(s.store.journal, s.store.durable) && LaneInv(s.guards, s.runs.reservations, s.store.durable)
    ensures var n := NextFinish(s, x); LaneInv(n.guards, n.runs.reservations, n.store.durable)
  {
    hide JournalInv, LaneInv, FinishGeneration, BeginFinalization, CompleteSettlement, FinishNoAction, PrepareNoAction, RequireRecovery, ReportQuiesced,
         AdmitReportWork, RecordNoAction, RecordTerminalSeen, Calmer, Wrote, QueuesGrow;
    var n := NextFinish(s, x);
    if x.DoFinishNoAction? { FinishNoActionWrites(s, x.token, x.now, x.storeOk); } else { FinishTame(s, x); }
    CalmLane(s.guards, s.runs.reservations, n.runs.reservations, s.store.durable, n.store.durable);
  }

  lemma StepKeepsLane(s: State, step: Step)
    requires JournalInv(s.store.journal, s.store.durable) && LaneInv(s.guards, s.runs.reservations, s.store.durable)
    ensures var n := Next(s, step); LaneInv(n.guards, n.runs.reservations, n.store.durable)
  {
    hide JournalInv, LaneInv, NextStart, NextFinish, NextClaim, NextDeliver, NextStop, NextFence;
    match step
    case Starts(x) => StartLane(s, x);
    case Finishes(x) => FinishingLane(s, x);
    case ClaimsWork(x) => ClaimFrame(s, x);
    case Delivers(x) => DeliveringLane(s, x);
    case Stops(x) => OtherStopsLane(s, x);
    case FencesOff(x) => FenceLane(s, x);
  }
}
