/** Delivery steps keep the core invariants. */
module DeliverKept {
  import opened Types
  import opened Tree
  import opened Journal
  import opened JournalLaws
  import opened State
  import opened Delivering
  import opened Effects
  import opened Invariants
  import opened FinishKept

  ghost predicate PostMinted(p: Post, n: Token) {
    Minted(p.receipts.Keys, n) && Minted(p.parcels.Keys, n) && Minted(p.waiters.Keys, n)
  }

  lemma PostStepTracks(s: State, n: State)
    requires TrackInv(s) && TokInv(s) && SameLeases(s.runs.live, n.runs.live) && OnlyReceipts(s.stop, n.stop)
    requires n == s.(runs := s.runs.(live := n.runs.live), post := n.post, stop := n.stop, nextToken := n.nextToken)
    requires s.nextToken <= n.nextToken && ReceiptsExact(n.stop, n.post.receipts) && PostMinted(n.post, n.nextToken)
    ensures TrackInv(n) && TokInv(n)
  {
    hide ActiveIn, StartsIn, WorkIn, ReceiptsIn, QuietsIn, SteeringIn, ModelsIn, SettlementsIn, WatchesIn, SameLeases;
    if s.stop.Some? { SameActive(s.runs.live, n.runs.live, s.stop.value.members); }
  }

  /** A step that only moves deliveries and waiters keeps the rest. */
  lemma PostStepKeepsCore(s: State, n: State)
    requires CoreInv(s) && SameLeases(s.runs.live, n.runs.live) && OnlyReceipts(s.stop, n.stop)
    requires n == s.(runs := s.runs.(live := n.runs.live), post := n.post, stop := n.stop, nextToken := n.nextToken)
    requires s.nextToken <= n.nextToken && ReceiptsExact(n.stop, n.post.receipts) && PostMinted(n.post, n.nextToken)
    ensures CoreInv(n)
  {
    hide TrackInv, TokInv, JournalInv, BindInv, ResInv, StopShape, SettleInv, CapInv, IndexExact, SameLeases, PostMinted, ReceiptsExact;
    PostStepTracks(s, n);
    SameRunsReflexive(s.store.durable);
    SteadyStep(s, n);
  }

  lemma PostFacts(s: State)
    requires CoreInv(s)
    ensures ReceiptsExact(s.stop, s.post.receipts) && PostMinted(s.post, s.nextToken) && StopShape(s.stop, s.store.durable)
  {
    hide JournalInv, BindInv, ResInv, SettleInv, IndexExact, StopShape, ReceiptsExact, CapInv, Minted;
  }

  // ---- Receipts ----

  lemma ReceiptAdded(stop: Option<StopState>, table: map<Token, Receipt>, t: Token, r: Receipt)
    requires ReceiptsExact(stop, table) && t !in table
    requires stop.Some? ==> r.delegate !in stop.value.members && r.owner !in stop.value.members
    ensures ReceiptsExact(stop, table[t := r])
  {
  }

  lemma ReceiptRemoved(stop: Option<StopState>, table: map<Token, Receipt>, t: Token)
    requires ReceiptsExact(stop, table)
    ensures ReceiptsExact(UntrackReceipt(stop, t), table - {t})
  {
  }

  lemma ReceiptMarked(stop: Option<StopState>, table: map<Token, Receipt>, t: Token, retryable: bool)
    requires ReceiptsExact(stop, table) && t in table
    ensures ReceiptsExact(stop, table[t := table[t].(retryable := retryable)])
  {
  }

  lemma {:induction false} CarriedTracks(stop: Option<StopState>, table: map<Token, Receipt>, p: Plan, cold: bool, inline: bool, next: Token, k: nat)
    requires 1 <= k <= |p.carried| && ReceiptsExact(stop, table) && Minted(table.Keys, next)
    requires stop.Some? ==> p.delegate !in stop.value.members && p.owner !in stop.value.members
    ensures ReceiptsExact(stop, AdmitCarried(table, p, cold, inline, next, k)) && Minted(AdmitCarried(table, p, cold, inline, next, k).Keys, next + k)
  {
    hide ReceiptsExact;
    if k == 1 {
      ReceiptAdded(stop, table, next + 1, Receipt(p.carried[0].did, p.delegate, p.owner, p.heldClaim, cold, inline, false, p.heldClaim));
    } else {
      CarriedTracks(stop, table, p, cold, inline, next, k - 1);
      ReceiptAdded(stop, AdmitCarried(table, p, cold, inline, next, k - 1), next + k,
                   Receipt(p.carried[k - 1].did, p.delegate, p.owner, 0, cold, inline, false, 0));
    }
  }

  lemma AdmitTracks(s: State, p: Plan)
    requires p.claim in s.post.parcels && ReceiptsExact(s.stop, s.post.receipts) && PostMinted(s.post, s.nextToken)
    requires !StopCovers(s, p.delegate) && !StopCovers(s, p.owner)
    ensures var n := Admit(s, p); ReceiptsExact(n.stop, n.post.receipts) && PostMinted(n.post, n.nextToken)
  {
    hide ReceiptsExact, AdmitCarried;
    var n := Admit(s, p);
    var k, cold, inline := |p.carried|, s.post.parcels[p.claim].cold, p.waiter != 0 || p.callerCommitted;
    if k != 0 { CarriedTracks(s.stop, s.post.receipts, p, cold, inline, s.nextToken, k); }
    var carried := if k == 0 then s.post.receipts else AdmitCarried(s.post.receipts, p, cold, inline, s.nextToken, k);
    ReceiptAdded(s.stop, carried, n.nextToken, Receipt(p.did, p.delegate, p.owner, p.claim, cold, inline, false, 0));
  }

  // ---- Steps ----

  lemma HandOverPost(s: State, w: Token)
    ensures HandOver(s, w).post.waiters.Keys == s.post.waiters.Keys
  {
  }

  lemma CurrentIsClaimed(s: State, p: Plan)
    requires PlanCurrent(s, p)
    ensures p.claim in s.post.parcels && ClaimIs(s, p.did, p.claim)
  {
  }

  lemma DecideTracks(s: State, p: Plan)
    requires ReceiptsExact(s.stop, s.post.receipts) && PostMinted(s.post, s.nextToken)
    ensures var n := Decide(s, p); ReceiptsExact(n.stop, n.post.receipts) && PostMinted(n.post, n.nextToken)
  {
    hide ReceiptsExact, PlanCurrent, RefuseCarrier, AttentionReserved, Admit;
    if !HasReceipt(s, p.did) && PlanCurrent(s, p) {
      CurrentIsClaimed(s, p);
      if !DeliveryStopped(s, p.delegate, p.owner) { AdmitTracks(s, p); }
    }
  }

  lemma BeginDeliveryTracks(s: State, p: Plan)
    requires ReceiptsExact(s.stop, s.post.receipts) && PostMinted(s.post, s.nextToken)
    ensures var n := BeginDelivery(s, p); ReceiptsExact(n.stop, n.post.receipts) && PostMinted(n.post, n.nextToken)
  {
    hide ReceiptsExact, RetryMatches, Decide, Genuine, HandOver;
    DecideTracks(s, p);
    HandOverPost(Decide(s, p), p.waiter);
    if Retries(s, p) { ReceiptMarked(s.stop, s.post.receipts, ReceiptFor(s, p.did).value, false); }
  }

  lemma BeginDeliveryKeepsCore(s: State, p: Plan)
    requires CoreInv(s)
    ensures CoreInv(BeginDelivery(s, p))
  {
    hide CoreInv, BeginDelivery, ReceiptsExact, PostMinted;
    PostFacts(s);
    BeginDeliveryTracks(s, p);
    PostStepKeepsCore(s, BeginDelivery(s, p));
  }

  lemma CompleteDeliveryKeepsCore(s: State, t: Token, committed: bool, wake: nat, storeOk: bool)
    requires CoreInv(s)
    ensures CoreInv(CompleteDelivery(s, t, committed, wake, storeOk))
  {
    hide CoreInv, ReceiptsExact, RestoreHeld, Note, UntrackReceipt, Append, JournalInv, SameRuns, Apply;
    PostFacts(s);
    if t in s.post.receipts {
      var r, n := s.post.receipts[t], CompleteDelivery(s, t, committed, wake, storeOk);
      ReceiptRemoved(s.stop, s.post.receipts, t);
      ReceiptMarked(s.stop, s.post.receipts, t, true);
      var e := DeliveryAcknowledged(r.delegate, r.did);
      var next := Append(s, [e], storeOk);
      if n.store == s.store {
        PostStepKeepsCore(s, n);
      } else {
        AckKeepsCore(s, e, storeOk);
        PostStepKeepsCore(next.value, n);
      }
    }
  }

  lemma AckKeepsCore(s: State, e: Event, storeOk: bool)
    requires CoreInv(s) && e.DeliveryAcknowledged? && Append(s, [e], storeOk).Some?
    ensures CoreInv(Append(s, [e], storeOk).value)
  {
    hide WellFormed, BindInv, ResInv, StopShape, SettleInv, CapInv, IndexExact, TrackInv, TokInv, SameRuns, Apply, Append, Fold;
    AppendEffect(s, [e], storeOk);
    OneEvent(s.store.durable, |s.store.journal|, e);
    AckEffect(s.store.durable, |s.store.journal| + 1, e, Append(s, [e], storeOk).value.store.durable);
    StoreStepKeepsCore(s, Append(s, [e], storeOk).value);
  }

  lemma PostUpdateKeepsCore(s: State, l: Lease, note: Packet, storeOk: bool)
    requires CoreInv(s)
    ensures CoreInv(PostUpdate(s, l, note, storeOk))
  {
    hide CoreInv, Admitted, HasSettlement, Append;
    var e := UpdatePosted(l.id, l.generation, note);
    if Append(s, [e], storeOk).Some? { QuietAppendKeepsCore(s, e, storeOk); }
  }

  lemma PlanDeliveryMints(s: State, id: Id, did: DeliveryId)
    requires ReceiptsExact(s.stop, s.post.receipts) && PostMinted(s.post, s.nextToken)
    ensures var n := PlanDelivery(s, id, did); PostMinted(n.post, n.nextToken) && ReceiptsExact(n.stop, n.post.receipts)
  {
    hide ReceiptsExact, Plannable, PlannedParcel, IndexIn, Unregister;
  }

  lemma PlanDeliveryKeepsCore(s: State, id: Id, did: DeliveryId)
    requires CoreInv(s)
    ensures CoreInv(PlanDelivery(s, id, did))
  {
    hide CoreInv, PlanDelivery, ReceiptsExact, PostMinted, SameLeases;
    PostFacts(s);
    PlanDeliveryMints(s, id, did);
    PostStepKeepsCore(s, PlanDelivery(s, id, did));
  }

  /** A step that moves claims, parcels already known, or waiters already known. */
  lemma SmallPostStepKeepsCore(s: State, n: State)
    requires CoreInv(s) && n == s.(runs := s.runs.(live := n.runs.live), post := s.post.(claims := n.post.claims, parcels := n.post.parcels, waiters := n.post.waiters))
    requires SameLeases(s.runs.live, n.runs.live) && n.post.parcels.Keys == s.post.parcels.Keys && n.post.waiters.Keys == s.post.waiters.Keys
    ensures CoreInv(n)
  {
    hide CoreInv, ReceiptsExact, SameLeases;
    PostFacts(s);
    PostStepKeepsCore(s, n);
  }

  lemma LeaveForRetryKeepsCore(s: State, t: Token)
    requires CoreInv(s)
    ensures CoreInv(LeaveForRetry(s, t))
  {
    hide CoreInv, ReceiptsExact, SameLeases;
    PostFacts(s);
    if t in s.post.receipts {
      ReceiptMarked(s.stop, s.post.receipts, t, true);
      LeavesLeases(s, t);
      PostStepKeepsCore(s, LeaveForRetry(s, t));
    }
  }

  lemma LeavesLeases(s: State, t: Token)
    ensures SameLeases(s.runs.live, LeaveForRetry(s, t).runs.live) && LeaveForRetry(s, t).post.receipts.Keys == s.post.receipts.Keys
  {
  }

  lemma SmallPostSteps(s: State, x: DeliverStep)
    requires x.DoHoldClaim? || x.DoDropClaim? || x.DoWithdrawWaiter? || x.DoDropStoppedWaiter? || x.DoAnswerWaiter?
    ensures var n := NextDeliver(s, x);
            SameLeases(s.runs.live, n.runs.live) && n.post.parcels.Keys == s.post.parcels.Keys && n.post.waiters.Keys == s.post.waiters.Keys
  {
    hide Genuine, ClaimIs, Unregister;
  }

  lemma DeliverKeepsCore(s: State, x: DeliverStep)
    requires CoreInv(s)
    ensures CoreInv(NextDeliver(s, x))
  {
    hide CoreInv, PostUpdate, PlanDelivery, BeginDelivery, CompleteDelivery, LeaveForRetry, HoldClaim, DropClaim, WithdrawWaiter, DropStoppedWaiter,
         AnswerWaiter, SameLeases;
    match x
    case DoPostUpdate(l, note, ok) => PostUpdateKeepsCore(s, l, note, ok);
    case DoPlanDelivery(id, did) => PlanDeliveryKeepsCore(s, id, did);
    case DoBeginDelivery(p) => BeginDeliveryKeepsCore(s, p);
    case DoCompleteDelivery(t, c, w, ok) => CompleteDeliveryKeepsCore(s, t, c, w, ok);
    case DoLeaveForRetry(t) => LeaveForRetryKeepsCore(s, t);
    case _ =>
      SmallPostSteps(s, x);
      SmallPostStepKeepsCore(s, NextDeliver(s, x));
  }
}
