/** The controller's invariant, kept by every step of every run. */
module Safety {
  import opened Types
  import opened Tree
  import opened Journal
  import opened JournalLaws
  import opened State
  import opened Finishing
  import opened Starting
  import opened Claims
  import opened Delivering
  import opened Stopping
  import opened Fences
  import opened Machine
  import opened Effects
  import opened Invariants
  import opened ClaimKept
  import opened FinishKept
  import opened StartKept
  import opened DeliverKept
  import opened StopKept
  import opened FenceKept
  import opened Writes
  import opened Accounts
  import opened Lanes
  import opened Exclusive
  import opened Carriers
  import opened Waiters
  import opened Reclaim

  /** Whoever finished a stopping run, the stop's outcome is what was journaled. */
  ghost predicate StopAlwaysWins(journal: seq<Event>) {
    forall k | 0 <= k < |journal| :: Fold(journal[..k]).Some? ==> StopWinsAt(Fold(journal[..k]).value, journal[k])
  }

  /** Deliveries are exclusive unless a carrier took over from another carrier. */
  ghost predicate InHand(p: Post, d: Durable) {
    Overtaken(p.parcels) || DelivInv(p, d)
  }

  ghost predicate Inv(s: State) {
    && CoreInv(s) && Accounted(s.runs, s.store.durable) && StopAlwaysWins(s.store.journal)
    && LaneInv(s.guards, s.runs.reservations, s.store.durable)
    && CarryInv(s.post, s.runs.live, s.store.durable) && InHand(s.post, s.store.durable) && NoStoppedClaim(s.stop, s.post.claims, s.post.parcels)
    && WaitInv(s.post, s.runs.reservations, s.runs.live) && ReclInv(s.guards, s.store.durable)
  }

  // ---- The journal ----

  /** The journal grew by a batch in which the stop wins. */
  ghost predicate Won(s: State, n: State) {
    && s.store.journal <= n.store.journal
    && StopWins(s.store.durable, |s.store.journal|, n.store.journal[|s.store.journal|..])
  }

  lemma WroteWins(s: State, n: State)
    requires Wrote(s, n)
    ensures Won(s, n)
  {
    hide StopWins;
  }

  lemma TameWins(s: State, n: State)
    requires Tame(s, n)
    ensures Won(s, n)
  {
    hide Calmer, QueuesGrow;
    WroteWins(s, n);
  }

  lemma SameJournalWins(s: State, n: State)
    requires n.store.journal == s.store.journal
    ensures Won(s, n)
  {
  }

  lemma StepWins(s: State, step: Step)
    requires JournalInv(s.store.journal, s.store.durable)
    ensures Won(s, Next(s, step))
  {
    hide JournalInv, NextStart, NextFinish, NextClaim, NextDeliver, NextStop, NextFence, Won, Tame, Wrote;
    match step
    case Starts(x) => StartWins(s, x);
    case Finishes(x) => FinishWins(s, x);
    case ClaimsWork(x) =>
      ClaimFrame(s, x);
      SameJournalWins(s, Next(s, step));
    case Delivers(x) => DeliverWins(s, x);
    case Stops(x) => StopStepWins(s, x);
    case FencesOff(x) =>
      FenceFrame(s, x);
      SameJournalWins(s, Next(s, step));
  }

  lemma StartWins(s: State, x: StartStep)
    requires JournalInv(s.store.journal, s.store.durable)
    ensures Won(s, NextStart(s, x))
  {
    hide JournalInv, NextStart, Won, Tame, Wrote, Committed;
    StartTame(s, x);
    if x.DoCommitStart? { WroteWins(s, NextStart(s, x)); } else { TameWins(s, NextStart(s, x)); }
  }

  lemma FinishWins(s: State, x: FinishStep)
    requires JournalInv(s.store.journal, s.store.durable)
    ensures Won(s, NextFinish(s, x))
  {
    hide JournalInv, Tame, Wrote, StopWins, FinishNoAction, FinishGeneration, BeginFinalization, CompleteSettlement, PrepareNoAction, RequireRecovery,
         ReportQuiesced, AdmitReportWork, RecordNoAction, RecordTerminalSeen;
    if x.DoFinishNoAction? { FinishNoActionWrites(s, x.token, x.now, x.storeOk); }
    else {
      FinishTame(s, x);
      TameWins(s, NextFinish(s, x));
    }
  }

  lemma DeliverWins(s: State, x: DeliverStep)
    requires JournalInv(s.store.journal, s.store.durable)
    ensures Won(s, NextDeliver(s, x))
  {
    hide JournalInv, Tame, Wrote, Won, Acked, PostUpdate, PlanDelivery, BeginDelivery, CompleteDelivery, LeaveForRetry, HoldClaim, DropClaim,
         WithdrawWaiter, DropStoppedWaiter, AnswerWaiter;
    if x.DoCompleteDelivery? {
      CompleteDeliveryWrites(s, x.token, x.committed, x.wake, x.storeOk);
      WroteWins(s, NextDeliver(s, x));
    } else {
      DeliverTame(s, x);
      TameWins(s, NextDeliver(s, x));
    }
  }

  lemma StopStepWins(s: State, x: StopStep)
    requires JournalInv(s.store.journal, s.store.durable)
    ensures Won(s, NextStop(s, x))
  {
    hide JournalInv, Tame, Wrote, Won, Requested, StopEnded, StopSubtree, RecoverStopped, CompleteStop, Restart, LoseRuntime, ForgetLost, BeginClosing,
         CloseResumability, CloseUnrestorable, OpenAttention, ForgetAttention;
    if x.DoStopSubtree? {
      StopSubtreeWrites(s, x.actor, x.target, x.allowClosing, x.storeOk);
      WroteWins(s, NextStop(s, x));
    } else if x.DoCompleteStop? {
      CompleteStopWrites(s, x.evidenceClean, x.storeOk);
      if NextStop(s, x) == s { SameJournalWins(s, s); } else { EndWins(s, NextStop(s, x)); }
    } else {
      StopStepTame(s, x);
      TameWins(s, NextStop(s, x));
    }
  }

  lemma EndWins(s: State, n: State)
    requires StopEnded(s, n)
    ensures Won(s, n)
  {
    hide Drained, WakesOf, SameWork, StopMembers;
    var e := StopCompleted(s.stop.value.target, s.stop.value.seqNo);
    OneEventWins(s.store.durable, |s.store.journal|, e);
    assert n.store.journal[|s.store.journal|..] == [e];
  }

  lemma WonKeeps(s: State, n: State)
    requires StopAlwaysWins(s.store.journal) && Fold(s.store.journal) == Some(s.store.durable) && Won(s, n)
    ensures StopAlwaysWins(n.store.journal)
  {
    hide Apply, StopWinsAt;
    var j, batch := s.store.journal, n.store.journal[|s.store.journal|..];
    assert n.store.journal == j + batch;
    forall k | 0 <= k < |n.store.journal| && Fold(n.store.journal[..k]).Some?
      ensures StopWinsAt(Fold(n.store.journal[..k]).value, n.store.journal[k])
    {
      if k < |j| {
        assert n.store.journal[..k] == j[..k];
      } else {
        assert n.store.journal[..k] == j + batch[..k - |j|];
        FoldBatch(j, s.store.durable, batch[..k - |j|]);
      }
    }
  }

  // ---- No claim touches a stop ----

  /** Every claim is an old one, or its parcel touches no member. */
  ghost predicate ClearOfStop(s: State, n: State) {
    && (forall k | k in n.post.claims :: (k in s.post.claims && n.post.claims[k] == s.post.claims[k])
          || (n.post.claims[k] in n.post.parcels && !StopCovers(s, n.post.parcels[n.post.claims[k]].delegate)
              && !StopCovers(s, n.post.parcels[n.post.claims[k]].owner)))
    && (forall t | t in s.post.parcels :: t in n.post.parcels && n.post.parcels[t].delegate == s.post.parcels[t].delegate
          && n.post.parcels[t].owner == s.post.parcels[t].owner)
  }

  lemma ClearKeeps(s: State, n: State)
    requires NoStoppedClaim(s.stop, s.post.claims, s.post.parcels) && KeysOk(s.post.claims, s.post.parcels) && ClearOfStop(s, n)
    requires n.stop.Some? ==> s.stop.Some? && n.stop.value.members == s.stop.value.members
    ensures NoStoppedClaim(n.stop, n.post.claims, n.post.parcels)
  {
    if n.stop.Some? {
      var m := n.stop.value.members;
      forall k | k in ClaimsIn(n.post.claims, n.post.parcels, m) ensures k in ClaimsIn(s.post.claims, s.post.parcels, m) {
        if k in s.post.claims { assert KeyOk(s.post.parcels, k, s.post.claims[k]); }
      }
    }
  }

  lemma PlanIsClear(s: State, id: Id, did: DeliveryId)
    requires Minted(s.post.parcels.Keys, s.nextToken)
    ensures ClearOfStop(s, PlanDelivery(s, id, did))
  {
    hide Carriable, ReceiverOf, ColdDeliveryWork, IndexIn, Unregister;
    var n := PlanDelivery(s, id, did);
    if Plannable(s, id, did) { assert n.post.parcels[s.nextToken + 1] == PlannedParcel(s, id, did); }
  }

  lemma RestoreIsClear(s: State, held: Token, k: DeliveryId)
    requires k in RestoreHeld(s, held)
    ensures (k in s.post.claims && RestoreHeld(s, held)[k] == s.post.claims[k])
            || (RestoreHeld(s, held)[k] in s.post.parcels && !StopCovers(s, s.post.parcels[RestoreHeld(s, held)[k]].delegate)
                && !StopCovers(s, s.post.parcels[RestoreHeld(s, held)[k]].owner))
  {
  }

  lemma RefuseIsClear(s: State, plan: Plan)
    ensures ClearOfStop(s, RefuseCarrier(s, plan))
  {
    forall k | k in RestoreHeld(s, plan.heldClaim)
      ensures (k in s.post.claims && RestoreHeld(s, plan.heldClaim)[k] == s.post.claims[k])
              || (RestoreHeld(s, plan.heldClaim)[k] in s.post.parcels && !StopCovers(s, s.post.parcels[RestoreHeld(s, plan.heldClaim)[k]].delegate)
                  && !StopCovers(s, s.post.parcels[RestoreHeld(s, plan.heldClaim)[k]].owner))
    {
      RestoreIsClear(s, plan.heldClaim, k);
    }
    hide RestoreHeld, StopCovers;
  }

  lemma ClearVia(s: State, a: State, n: State, did: DeliveryId)
    requires a == s.(post := s.post.(claims := s.post.claims - {did})) && ClearOfStop(a, n)
    ensures ClearOfStop(s, n)
  {
  }

  lemma DecideIsClear(s: State, plan: Plan)
    ensures ClearOfStop(s, Decide(s, plan))
  {
    hide RefuseCarrier, PlanCurrent, DeliveryStopped, AttentionReserved, HasReceipt, AdmitCarried, StopCovers;
    RefuseIsClear(s, plan);
    var cut := s.(post := s.post.(claims := s.post.claims - {plan.did}));
    RefuseIsClear(cut, plan);
    ClearVia(s, cut, RefuseCarrier(cut, plan), plan.did);
    if PlanCurrent(s, plan) { CurrentIsClaimed(s, plan); }
  }

  lemma BeginIsClear(s: State, plan: Plan)
    ensures ClearOfStop(s, BeginDelivery(s, plan))
  {
    hide Decide, Genuine, Retries, StopCovers;
    DecideIsClear(s, plan);
  }

  lemma CompleteIsClear(s: State, t: Token, committed: bool, wake: nat, storeOk: bool)
    ensures ClearOfStop(s, CompleteDelivery(s, t, committed, wake, storeOk))
  {
    if t in s.post.receipts {
      forall k | k in RestoreHeld(s, s.post.receipts[t].held)
        ensures var c := RestoreHeld(s, s.post.receipts[t].held);
                (k in s.post.claims && c[k] == s.post.claims[k])
                || (c[k] in s.post.parcels && !StopCovers(s, s.post.parcels[c[k]].delegate) && !StopCovers(s, s.post.parcels[c[k]].owner))
      {
        RestoreIsClear(s, s.post.receipts[t].held, k);
      }
    }
    hide RestoreHeld, StopCovers, Append, Note, UntrackReceipt;
  }

  lemma DeliverIsClear(s: State, x: DeliverStep)
    requires Minted(s.post.parcels.Keys, s.nextToken)
    ensures ClearOfStop(s, NextDeliver(s, x))
  {
    hide PlanDelivery, BeginDelivery, CompleteDelivery, StopCovers, Genuine, ClaimIs, Append, Admitted, Unregister, PostUpdate, WithdrawWaiter, DropStoppedWaiter;
    match x
    case DoPlanDelivery(id, did) => PlanIsClear(s, id, did);
    case DoBeginDelivery(p) => BeginIsClear(s, p);
    case DoCompleteDelivery(t, c, w, ok) => CompleteIsClear(s, t, c, w, ok);
    case _ =>
  }

  // ---- Deliveries and reclamation, step by step ----

  /** Deliveries exclusive, clear of the stop, and reclamation marks in order. */
  ghost predicate HandsInv(s: State) {
    InHand(s.post, s.store.durable) && NoStoppedClaim(s.stop, s.post.claims, s.post.parcels) && ReclInv(s.guards, s.store.durable)
  }

  lemma CalmHands(s: State, n: State)
    requires HandsInv(s) && Calmer(s.store.durable, n.store.durable) && QueuesGrow(s.store.durable, n.store.durable)
    requires n.post.claims == s.post.claims && n.post.receipts == s.post.receipts && n.post.parcels == s.post.parcels
    requires n.guards.reclaiming == s.guards.reclaiming && n.guards.reclamations == s.guards.reclamations
    requires n.stop.Some? ==> s.stop.Some? && n.stop.value.members == s.stop.value.members
    ensures HandsInv(n)
  {
    hide Overtaken, DelivInv, Calmer, QueuesGrow, RootsOk, ClaimsIn;
    if !Overtaken(s.post.parcels) { TameKeeps(s, n); }
    CalmRecl(s.guards, s.store.durable, n.store.durable);
  }

  lemma OpenedHands(s: State, n: State, t: Token)
    requires HandsInv(s) && WellFormed(s.store.durable, |s.store.journal|) && Committed(s, n, t)
    requires n.post.claims == s.post.claims && n.post.receipts == s.post.receipts && n.post.parcels == s.post.parcels
    ensures HandsInv(n)
  {
    hide WellFormed, StartedLive;
    var r := s.runs.reservations[t];
    GrownRecl(s.guards, s.store.durable, n.store.durable, |s.store.journal|, r);
    OpenedQueues(s.store.durable, n.store.durable, r, |s.store.journal| + 1);
    hide Overtaken, DelivInv, RunOpened, QueuesGrow, ReclInv, ClaimsIn, JournalInv;
    if !Overtaken(s.post.parcels) {
      GrowthKeeps(s.post, s.store.durable, n.store.durable);
      WaitersAside(s.post, n.post, n.store.durable);
    }
  }

  lemma OpenedQueues(d: Durable, d': Durable, r: Reservation, born: nat)
    requires RunOpened(d, d', r, born)
    ensures QueuesGrow(d, d') && forall i | i in d :: i in d' && d'[i].parent == d[i].parent
  {
    forall i | i in d ensures i in d' && d'[i].parent == d[i].parent {
      assert ShapeOf(d)[i] == ShapeOf(d')[i];
    }
  }

  lemma StartHands(s: State, x: StartStep)
    requires HandsInv(s) && JournalInv(s.store.journal, s.store.durable)
    ensures HandsInv(NextStart(s, x))
  {
    hide HandsInv, WellFormed, Fold, Committed, ReserveCreate, ReserveStart, ReserveAttention, ReserveOwedAttention, RegisterWaiter, Wrote, Calmer, QueuesGrow,
         ReleaseReservation, CommitStart, AttachRuntime, AttachIdleRuntime, BeginStartInput, CompleteStartInput, FailCommitted;
    var n := NextStart(s, x);
    StartTame(s, x);
    if x.DoCommitStart? && n.store != s.store {
      OpenedHands(s, n, x.token);
    } else {
      if x.DoCommitStart? { NothingWritten(s, n); }
      CalmHands(s, n);
    }
  }

  lemma FinishHands(s: State, x: FinishStep)
    requires HandsInv(s) && JournalInv(s.store.journal, s.store.durable)
    ensures HandsInv(NextFinish(s, x))
  {
    hide HandsInv, JournalInv, FinishGeneration, BeginFinalization, CompleteSettlement, FinishNoAction, PrepareNoAction, RequireRecovery, ReportQuiesced,
         AdmitReportWork, RecordNoAction, RecordTerminalSeen, Calmer, Wrote, QueuesGrow, StopWins, ClosingBatch, Lawful;
    if x.DoFinishNoAction? { FinishNoActionWrites(s, x.token, x.now, x.storeOk); } else { FinishTame(s, x); }
    CalmHands(s, NextFinish(s, x));
  }

  lemma ClaimHands(s: State, x: ClaimStep)
    requires HandsInv(s)
    ensures HandsInv(NextClaim(s, x))
  {
    hide HandsInv, NextClaim, Calmer, QueuesGrow, Wrote;
    ClaimFrame(s, x);
    NothingWritten(s, NextClaim(s, x));
    CalmHands(s, NextClaim(s, x));
  }

  lemma FenceHands(s: State, x: FenceStep)
    requires HandsInv(s) && Minted(s.guards.reclamations.Keys, s.nextToken)
    ensures HandsInv(NextFence(s, x))
  {
    hide NextFence, InHand, ReclInv, ClaimsIn, Minted;
    FenceFrame(s, x);
    FenceRecl(s, x);
  }

  lemma DeliverInHand(s: State, x: DeliverStep)
    requires InHand(s.post, s.store.durable) && JournalInv(s.store.journal, s.store.durable)
    requires Minted(s.post.receipts.Keys, s.nextToken) && Minted(s.post.parcels.Keys, s.nextToken)
    ensures var n := NextDeliver(s, x); InHand(n.post, n.store.durable)
  {
    hide Overtaken, DelivInv, JournalInv, Minted, NextDeliver, ParcelsStay;
    DeliverParcelsStay(s, x);
    if Overtaken(s.post.parcels) { OvertakenStays(s.post.parcels, NextDeliver(s, x).post.parcels); }
    else if !Overtaken(NextDeliver(s, x).post.parcels) { DeliverKeeps(s, x); }
  }

  lemma DeliverHands(s: State, x: DeliverStep)
    requires HandsInv(s) && JournalInv(s.store.journal, s.store.durable) && KeysOk(s.post.claims, s.post.parcels)
    requires Minted(s.post.receipts.Keys, s.nextToken) && Minted(s.post.parcels.Keys, s.nextToken)
    ensures HandsInv(NextDeliver(s, x))
  {
    hide InHand, ReclInv, JournalInv, NextDeliver, ClearOfStop, Minted, Calmer, KeysOk, NoStoppedClaim;
    DeliverInHand(s, x);
    DeliverIsClear(s, x);
    DeliverCalm(s, x);
    ClearKeeps(s, NextDeliver(s, x));
    CalmRecl(s.guards, s.store.durable, NextDeliver(s, x).store.durable);
  }

  lemma DeliverCalm(s: State, x: DeliverStep)
    requires JournalInv(s.store.journal, s.store.durable)
    ensures var n := NextDeliver(s, x);
            && Calmer(s.store.durable, n.store.durable) && n.guards == s.guards
            && (n.stop.Some? ==> s.stop.Some? && n.stop.value.members == s.stop.value.members)
  {
    hide JournalInv, PostUpdate, PlanDelivery, BeginDelivery, CompleteDelivery, LeaveForRetry, HoldClaim, DropClaim, WithdrawWaiter,
         DropStoppedWaiter, AnswerWaiter, Calmer, Wrote, QueuesGrow, SameWork;
    var n := NextDeliver(s, x);
    if x.DoCompleteDelivery? {
      CompleteDeliveryWrites(s, x.token, x.committed, x.wake, x.storeOk);
      if n.store == s.store { NothingWritten(s, n); } else { SameWorkIsCalmer(s.store.durable, n.store.durable); }
    } else {
      DeliverTame(s, x);
    }
  }

  lemma RequestedHands(s: State, n: State, target: Id)
    requires HandsInv(s) && Requested(s, n, target) && n.guards == s.guards
    requires n.post == s.post.(claims := s.post.claims - ClaimsIn(s.post.claims, s.post.parcels, n.stop.value.members), waiters := n.post.waiters)
    ensures HandsInv(n)
  {
    var p, gone, d' := s.post, ClaimsIn(s.post.claims, s.post.parcels, n.stop.value.members), n.store.durable;
    assert ClaimsIn(n.post.claims, n.post.parcels, n.stop.value.members) == {};
    SameWorkIsCalmer(s.store.durable, d');
    SameParents(s.store.durable, d');
    RequestedQueues(s.store.durable, d');
    hide Overtaken, DelivInv, ReclInv, ClaimsIn, QueuesGrow, Calmer, Requested;
    CalmRecl(s.guards, s.store.durable, d');
    if !Overtaken(p.parcels) {
      StopTakesCarriersWhole(p, s.store.durable, n.stop.value.members);
      FewerClaimsKeep(p, gone, s.store.durable);
      GrowthKeeps(p.(claims := p.claims - gone), s.store.durable, d');
      WaitersAside(p.(claims := p.claims - gone), n.post, d');
    }
  }

  lemma StopTakesCarriersWhole(p: Post, d: Durable, members: set<Id>)
    requires DelivInv(p, d)
    ensures forall t | Carrying(p.claims, p.parcels, t) && p.parcels[t].carried[0].did in ClaimsIn(p.claims, p.parcels, members) ::
              p.parcels[t].did in ClaimsIn(p.claims, p.parcels, members)
  {
    forall t | Carrying(p.claims, p.parcels, t) && p.parcels[t].carried[0].did in ClaimsIn(p.claims, p.parcels, members)
      ensures p.parcels[t].did in ClaimsIn(p.claims, p.parcels, members)
    {
      assert CarrierOk(p.claims, p.receipts, d, t, p.parcels[t]);
    }
  }

  lemma RequestedQueues(d: Durable, d': Durable)
    requires SameWork(d, d') && forall i | i in d :: d'[i].queue == d[i].queue
    ensures QueuesGrow(d, d')
  {
  }

  lemma EndedHands(s: State, n: State)
    requires HandsInv(s) && StopEnded(s, n) && StopShape(s.stop, s.store.durable) && n.guards == s.guards && n.post == s.post
    ensures HandsInv(n)
  {
    var p, d, d' := s.post, s.store.durable, n.store.durable;
    SameWorkIsCalmer(d, d');
    SameParents(d, d');
    if !Overtaken(p.parcels) { CarriedQueuesStay(s, n); }
    hide Overtaken, DelivInv, ReclInv, ClaimsIn, Calmer, StopEnded, StopShape;
    CalmRecl(s.guards, d, d');
    if !Overtaken(p.parcels) { QueueChangeKeeps(p, d, d'); }
  }

  lemma CarriedQueuesStay(s: State, n: State)
    requires DelivInv(s.post, s.store.durable) && NoStoppedClaim(s.stop, s.post.claims, s.post.parcels)
    requires StopEnded(s, n) && StopShape(s.stop, s.store.durable)
    ensures var p, d := s.post, s.store.durable;
            forall t | Carrying(p.claims, p.parcels, t) :: p.parcels[t].delegate in d ==> n.store.durable[p.parcels[t].delegate].queue == d[p.parcels[t].delegate].queue
  {
    var p, d := s.post, s.store.durable;
    forall t | Carrying(p.claims, p.parcels, t) && p.parcels[t].delegate in d
      ensures n.store.durable[p.parcels[t].delegate].queue == d[p.parcels[t].delegate].queue
    {
      assert p.parcels[t].owner == d[p.parcels[t].delegate].parent;
      assert p.parcels[t].did !in ClaimsIn(p.claims, p.parcels, s.stop.value.members);
    }
  }

  lemma RestartHands(s: State, pending: map<Id, set<nat>>)
    ensures HandsInv(Restart(s, pending))
  {
    hide RestoredStop, OwedWakes;
  }

  lemma StopHands(s: State, x: StopStep)
    requires HandsInv(s) && JournalInv(s.store.journal, s.store.durable) && StopShape(s.stop, s.store.durable)
    ensures HandsInv(NextStop(s, x))
  {
    hide HandsInv, JournalInv, StopShape, RecoverStopped, CompleteStop, LoseRuntime, ForgetLost, BeginClosing, CloseResumability, CloseUnrestorable,
         OpenAttention, ForgetAttention, Restart, Calmer, Wrote, QueuesGrow, StopEnded, Requested, StopSubtree;
    var n := NextStop(s, x);
    if x.DoRestart? { RestartHands(s, x.wakes); }
    else if x.DoStopSubtree? {
      StopSubtreeWrites(s, x.actor, x.target, x.allowClosing, x.storeOk);
      if n != s {
        RequestedPost(s, x.actor, x.target, x.allowClosing, x.storeOk);
        RequestedHands(s, n, x.target);
      }
    } else if x.DoCompleteStop? {
      CompleteStopWrites(s, x.evidenceClean, x.storeOk);
      if n != s { EndedHands(s, n); }
    } else {
      StopStepTame(s, x);
      CalmHands(s, n);
    }
  }

  lemma RequestedPost(s: State, actor: Option<Lease>, target: Id, allowClosing: bool, storeOk: bool)
    requires StopSubtree(s, actor, target, allowClosing, storeOk) != s
    ensures var n := StopSubtree(s, actor, target, allowClosing, storeOk);
            n.stop.Some? && n.post == s.post.(claims := s.post.claims - ClaimsIn(s.post.claims, s.post.parcels, n.stop.value.members), waiters := n.post.waiters)
  {
    hide Append, Subtree, ClaimsIn, WaitersIn, OweAll, AttentionBlocks, Authorized, ActiveIn, StartsIn, WorkIn, ReceiptsIn, QuietsIn, SteeringIn, ModelsIn,
         SettlementsIn, WatchesIn;
  }

  // ---- Every step, every run ----

  lemma StepKeepsCore(s: State, step: Step)
    requires CoreInv(s)
    ensures CoreInv(Next(s, step))
  {
    hide CoreInv, NextStart, NextFinish, NextClaim, NextDeliver, NextStop, NextFence;
    match step
    case Starts(x) => StartKeepsCore(s, x);
    case Finishes(x) => FinishKeepsCore(s, x);
    case ClaimsWork(x) => ClaimKeepsCore(s, x);
    case Delivers(x) => DeliverKeepsCore(s, x);
    case Stops(x) => StopKeepsCore(s, x);
    case FencesOff(x) => FenceKeepsCore(s, x);
  }

  lemma CoreParts(s: State)
    requires CoreInv(s)
    ensures JournalInv(s.store.journal, s.store.durable) && StopShape(s.stop, s.store.durable) && TokInv(s)
    ensures Minted(s.post.receipts.Keys, s.nextToken) && Minted(s.post.parcels.Keys, s.nextToken) && Minted(s.guards.reclamations.Keys, s.nextToken)
  {
    hide JournalInv, StopShape, TrackInv, Minted, BindInv, ResInv, SettleInv, IndexExact, CapInv;
  }

  lemma StepKeepsHands(s: State, step: Step)
    requires CoreInv(s) && HandsInv(s) && KeysOk(s.post.claims, s.post.parcels)
    ensures HandsInv(Next(s, step))
  {
    hide KeysOk, CoreInv, HandsInv, JournalInv, StopShape, Minted, TokInv, NextStart, NextFinish, NextClaim, NextDeliver, NextStop, NextFence;
    CoreParts(s);
    match step
    case Starts(x) => StartHands(s, x);
    case Finishes(x) => FinishHands(s, x);
    case ClaimsWork(x) => ClaimHands(s, x);
    case Delivers(x) => DeliverHands(s, x);
    case Stops(x) => StopHands(s, x);
    case FencesOff(x) => FenceHands(s, x);
  }

  /** A longer journal grew its records. */
  lemma JournalGrows(s: State, n: State)
    requires JournalInv(s.store.journal, s.store.durable) && JournalInv(n.store.journal, n.store.durable) && Won(s, n)
    ensures Grown(s.store.durable, n.store.durable)
  {
    hide WellFormed, StopWins, Fold;
    var k := |s.store.journal|;
    assert n.store.journal[..k] == s.store.journal;
    forall i | i in s.store.durable
      ensures i in n.store.durable && n.store.durable[i].parent == s.store.durable[i].parent && s.store.durable[i].generation <= n.store.durable[i].generation
    {
      GenerationsGrow(n.store.journal, k, i);
    }
  }

  lemma WaitersAreMinted(s: State)
    requires WaitInv(s.post, s.runs.reservations, s.runs.live) && TokInv(s)
    ensures NoZeroWaiter(s.runs.live)
  {
    hide ReservedOk, ClaimedOk, HeldWaitless, WaitersAt;
    assert 0 !in s.post.waiters;
  }

  lemma StepCarries(s: State, step: Step)
    requires CoreInv(s) && CoreInv(Next(s, step)) && CarryInv(s.post, s.runs.live, s.store.durable) && WaitInv(s.post, s.runs.reservations, s.runs.live)
    ensures var n := Next(s, step); CarryInv(n.post, n.runs.live, n.store.durable)
  {
    hide CoreInv, CarryInv, WaitInv, JournalInv, StopShape, TokInv, Minted, Next, Won, Grown, NoZeroWaiter;
    CoreParts(s);
    CoreParts(Next(s, step));
    WaitersAreMinted(s);
    StepWins(s, step);
    JournalGrows(s, Next(s, step));
    StepKeepsCarry(s, step);
  }

  lemma CarryKeys(s: State)
    requires CarryInv(s.post, s.runs.live, s.store.durable)
    ensures KeysOk(s.post.claims, s.post.parcels)
  {
    hide KeysOk, MintsOk, SiblingsOk, HeldReceipts;
  }

  /** Every step keeps the invariant. */
  lemma StepKeepsInv(s: State, step: Step)
    requires Inv(s)
    ensures Inv(Next(s, step))
  {
    hide CoreInv, LaneInv, InHand, CarryInv, KeysOk, NoStoppedClaim, WaitInv, ReclInv, Next, StopAlwaysWins, Onward, Won, Accounted;
    CoreParts(s);
    StepKeepsCore(s, step);
    StepAccounts(s, step);
    CarryKeys(s);
    StepKeepsHands(s, step);
    StepCarries(s, step);
    StepKeepsLane(s, step);
    StepMovesWaiters(s, step);
    StepWins(s, step);
    FoldedJournal(s);
    WonKeeps(s, Next(s, step));
  }

  /** The parts of the invariant a reconciliation reads. */
  lemma InvKnows(s: State)
    requires Inv(s)
    ensures JournalInv(s.store.journal, s.store.durable) && StopShape(s.stop, s.store.durable) && Accounted(s.runs, s.store.durable) && ActiveExact(s.stop, s.runs.live)
  {
    hide StopAlwaysWins, BindInv, ResInv, SettleInv, TokInv, CapInv, StopShape, JournalInv, Accounted, ActiveExact, LaneInv, CarryInv, InHand, NoStoppedClaim, WaitInv,
         ReclInv, IndexExact, StartsExact, WorkExact, ReceiptsExact, QuietsExact, SteeringExact, ModelsExact, SettlementsExact, EnqueuesExact, WatchesExact;
  }

  lemma FoldedJournal(s: State)
    requires JournalInv(s.store.journal, s.store.durable)
    ensures Fold(s.store.journal) == Some(s.store.durable)
  {
  }

  lemma EmptyJournal()
    ensures JournalInv([], map[]) && IndexExact(map[], ShapeOf(map[])) && StopShape(None, map[])
  {
  }

  lemma EmptyRuns()
    ensures BindInv(map[], map[]) && ResInv(map[], map[]) && SettleInv(map[], map[])
    ensures InUse(map[], map[], map[], false) == 0 && InUse(map[], map[], map[], true) == 0
  {
    assert Bound(map[], map[], false) == {} && Bound(map[], map[], true) == {};
    assert Slots(map[], false) == {} && Slots(map[], true) == {};
  }

  lemma InitCore(limits: Limits)
    ensures CoreInv(Init(limits))
  {
    hide TokInv, TrackInv, JournalInv, IndexExact, StopShape, BindInv, ResInv, SettleInv, InUse, ShapeOf;
    EmptyJournal();
    EmptyRuns();
    EmptyTables(Init(limits));
  }

  lemma InitHands(limits: Limits)
    ensures HandsInv(Init(limits)) && StopAlwaysWins(Init(limits).store.journal)
    ensures CarryInv(Init(limits).post, Init(limits).runs.live, Init(limits).store.durable)
  {
  }

  lemma InitHolds(limits: Limits)
    ensures Inv(Init(limits))
  {
    InitCore(limits);
    InitHands(limits);
    hide CoreInv, InHand, CarryInv, NoStoppedClaim, ReclInv, StopAlwaysWins;
  }

  /** Every reachable state satisfies the invariant, whatever steps ran and whichever appends failed. */
  lemma {:induction false} RunKeepsInv(limits: Limits, steps: seq<Step>)
    ensures Inv(Run(Init(limits), steps))
  {
    hide Inv, Next;
    if steps == [] {
      InitHolds(limits);
    } else {
      RunKeepsInv(limits, steps[..|steps| - 1]);
      StepKeepsInv(Run(Init(limits), steps[..|steps| - 1]), steps[|steps| - 1]);
    }
  }
}
