/** Where exclusive delivery breaks: a carrier that takes its head over from another carrier. */
module Takeover {
  import opened Types
  import opened JournalLaws
  import opened State
  import opened Delivering
  import opened Invariants
  import opened Exclusive
  import opened Carriers
  import opened Tree
  import opened Journal
  import opened Finishing
  import opened Starting
  import opened Claims
  import opened Stopping
  import opened Fences
  import opened Machine
  import opened Accounts
  import opened Lanes
  import opened Waiters
  import opened Reclaim
  import opened Safety

  // ---- A takeover, and the delivery that then breaks exclusivity ----

  /** The delegate's head is claimed by a carrier that is still in flight. */
  predicate CarrierAhead(s: State, id: Id) {
    && id in s.store.durable && s.store.durable[id].queue != []
    && var head := s.store.durable[id].queue[0].did;
    head in s.post.claims && Carrying(s.post.claims, s.post.parcels, s.post.claims[head])
  }

  /** The plan of the carrier `t`, as its holder retries it: answering nobody any more. */
  function RetriedPlan(s: State, t: Token): Plan
    requires t in s.post.parcels && s.post.parcels[t].delegate in s.store.durable
    requires |s.store.durable[s.post.parcels[t].delegate].queue| > |s.post.parcels[t].carried|
  {
    var c := s.post.parcels[t];
    Plan(c.did, c.delegate, c.owner, s.store.durable[c.delegate].queue[|c.carried|].packet, 0, t, false, c.carried, c.heldClaim)
  }

  /** What a plan over a carrier in flight finds. */
  lemma TakeoverShape(s: State, id: Id, did: DeliveryId)
    requires DelivInv(s.post, s.store.durable) && CarryInv(s.post, s.runs.live, s.store.durable) && WellFormed(s.store.durable, |s.store.journal|)
    requires Plannable(s, id, did) && IndexIn(s.store.durable[id].queue, did) > 0 && CarrierAhead(s, id)
    ensures var q := s.store.durable[id].queue; var t, at := s.post.claims[q[0].did], IndexIn(q, did);
            && s.post.parcels[t].delegate == id && at < |s.post.parcels[t].carried| < |q| && s.post.parcels[t].held && s.post.parcels[t].waiter == 0
            && s.post.parcels[t].carried == q[..|s.post.parcels[t].carried|] && q[|s.post.parcels[t].carried|].did == s.post.parcels[t].did
            && s.post.parcels[t].carried[at].did == did && s.post.claims[s.post.parcels[t].did] == t && did != s.post.parcels[t].did
  {
    hide WellFormed, ReceiverOf, ColdDeliveryWork, DeliveryStopped, ParcelsOk, KeysOk, OwnersOk, OneHolder, HeldOk, SiblingsOk, HeldReceipts, IndexIn;
    var q := s.store.durable[id].queue;
    var t, at := s.post.claims[q[0].did], IndexIn(q, did);
    var c := s.post.parcels[t];
    assert MintOk(s.post.parcels, t, c, s.runs.live, s.store.durable);
    assert CarrierOk(s.post.claims, s.post.receipts, s.store.durable, t, c);
    DidNamesDelegate(s.store.durable, |s.store.journal|, id, 0);
    HeadNames(s.post, s.store.durable, |s.store.journal|, t, q[0].did);
    var m := |c.carried|;
    assert q[m].did == c.did && c.did in s.post.claims;
    assert c.carried[at] == q[at];
    DidNamesDelegate(s.store.durable, |s.store.journal|, id, m);
  }

  /** A carrier delivers for the delegate whose head it claims. */
  lemma HeadNames(p: Post, d: Durable, n: nat, t: Token, head: DeliveryId)
    requires DelivInv(p, d) && WellFormed(d, n) && Carrying(p.claims, p.parcels, t) && head in p.claims && p.claims[head] == t
    requires head.id in d && d[head.id].queue != [] && d[head.id].queue[0].did == head
    ensures p.parcels[t].delegate == head.id
  {
    hide WellFormed, ParcelsOk, OwnersOk, OneHolder, HeldOk;
    var c := p.parcels[t];
    assert CarrierOk(p.claims, p.receipts, d, t, c);
    assert KeyOk(p.parcels, head, t);
    DidNamesDelegate(d, n, c.delegate, 0);
    DidNamesDelegate(d, n, c.delegate, |c.carried|);
    assert c.carried[0] == d[c.delegate].queue[0];
  }

  /** The taken-over carrier's plan is as good as ever. */
  lemma TakenOverIsCurrent(s: State, id: Id, did: DeliveryId)
    requires DelivInv(s.post, s.store.durable) && CarryInv(s.post, s.runs.live, s.store.durable) && WellFormed(s.store.durable, |s.store.journal|)
    requires Plannable(s, id, did) && IndexIn(s.store.durable[id].queue, did) > 0 && CarrierAhead(s, id) && Minted(s.post.parcels.Keys, s.nextToken)
    ensures var n, t := PlanDelivery(s, id, did), s.post.claims[s.store.durable[id].queue[0].did];
            && t in n.post.parcels && n.post.parcels[t] == s.post.parcels[t] && n.post.parcels[t].delegate in n.store.durable
            && |n.store.durable[n.post.parcels[t].delegate].queue| > |n.post.parcels[t].carried|
            && Genuine(n, RetriedPlan(n, t)) && PlanCurrent(n, RetriedPlan(n, t)) && !HasReceipt(n, n.post.parcels[t].did)
            && did in n.post.claims && n.post.claims[did] == n.nextToken && !ClaimIs(n, n.post.parcels[t].carried[0].did, t)
  {
    hide DelivInv, CarryInv, WellFormed, Plannable, PlanDelivery, Minted, HasReceipt, IndexIn;
    TakeoverShape(s, id, did);
    PlannedPost(s, id, did);
    CarrierOwner(s, id);
    var q := s.store.durable[id].queue;
    assert q[|s.post.parcels[s.post.claims[q[0].did]].carried|].did != q[0].did;
  }

  lemma CarrierOwner(s: State, id: Id)
    requires DelivInv(s.post, s.store.durable) && WellFormed(s.store.durable, |s.store.journal|) && CarrierAhead(s, id)
    ensures var q := s.store.durable[id].queue; var t := s.post.claims[q[0].did];
            && !HasReceipt(s, s.post.parcels[t].did) && (forall k | 0 < k < |q| :: q[k].did != q[0].did)
            && (s.post.parcels[t].delegate == id ==>
                  s.post.parcels[t].owner == s.store.durable[id].parent && forall k | 0 <= k < |q| :: q[k].owner == s.store.durable[id].parent)
  {
    hide KeysOk, ParcelsOk, CarriersOk, HeldOk, WellFormed;
    var q := s.store.durable[id].queue;
    var t := s.post.claims[q[0].did];
    HeldIsFree(s.post, s.post.parcels[t].did);
    DidNamesDelegate(s.store.durable, |s.store.journal|, id, 0);
    forall k | 0 <= k < |q| ensures q[k].owner == s.store.durable[id].parent { DidNamesDelegate(s.store.durable, |s.store.journal|, id, k); }
  }

  /** What planning behind the head writes. */
  lemma PlannedPost(s: State, id: Id, did: DeliveryId)
    requires Plannable(s, id, did) && IndexIn(s.store.durable[id].queue, did) > 0 && Minted(s.post.parcels.Keys, s.nextToken)
    ensures var n, u := PlanDelivery(s, id, did), s.nextToken + 1;
            && n.store == s.store && n.nextToken == u && n.post.receipts == s.post.receipts && u !in s.post.parcels
            && n.post.claims == s.post.claims[did := u][s.store.durable[id].queue[0].did := u]
            && n.post.parcels == s.post.parcels[u := PlannedParcel(s, id, did)]
            && (HasReceipt(n, did) <==> HasReceipt(s, did)) && (forall x :: HasReceipt(n, x) <==> HasReceipt(s, x))
  {
    hide ReceiverOf, ColdDeliveryWork, DeliveryStopped, Carriable, IndexIn, Unregister;
    var q := s.store.durable[id].queue;
    assert q[..IndexIn(q, did)][0] == q[0];
  }

  lemma AdmittedTwice(n: State, p: Plan, at: nat)
    requires p.claim in n.post.parcels && Minted(n.post.receipts.Keys, n.nextToken) && 0 < at < |p.carried|
    requires p.carried[at].did in n.post.claims && p.carried[at].did != p.did && p.carried[at].did != p.carried[0].did
    ensures !OneHolder(Admit(n, p).post.claims, Admit(n, p).post.receipts)
  {
    hide AdmitCarried;
    AdmittedReceipts(n, p, n.nextToken + at + 1);
    assert Admit(n, p).post.receipts[n.nextToken + at + 1].did == p.carried[at].did;
  }

  lemma RefusedOnce(n: State, p: Plan)
    requires OneHolder(n.post.claims, n.post.receipts) && p.carried != [] && !ClaimIs(n, p.carried[0].did, p.claim)
    ensures OneHolder(RefuseCarrier(n, p).post.claims, RefuseCarrier(n, p).post.receipts)
    ensures var cut := n.(post := n.post.(claims := n.post.claims - {p.did}));
            OneHolder(RefuseCarrier(cut, p).post.claims, RefuseCarrier(cut, p).post.receipts)
  {
    hide RestoreHeld;
  }

  lemma HandOverSame(n: State, w: Token)
    ensures HandOver(n, w).post.claims == n.post.claims && HandOver(n, w).post.receipts == n.post.receipts
  {
  }

  /** Delivering a carrier that was taken over leaves some delivery with two holders, exactly when the delivery is admitted:
      nothing stops it for good and its owner is not starting on an attention. */
  lemma TakeoverBreaksExclusivity(s: State, id: Id, did: DeliveryId)
    requires DelivInv(s.post, s.store.durable) && CarryInv(s.post, s.runs.live, s.store.durable) && WellFormed(s.store.durable, |s.store.journal|)
    requires Plannable(s, id, did) && IndexIn(s.store.durable[id].queue, did) > 0 && CarrierAhead(s, id)
    requires Minted(s.post.parcels.Keys, s.nextToken) && Minted(s.post.receipts.Keys, s.nextToken)
    ensures var n, t := PlanDelivery(s, id, did), s.post.claims[s.store.durable[id].queue[0].did];
            && t in n.post.parcels && n.post.parcels[t].delegate in n.store.durable
            && |n.store.durable[n.post.parcels[t].delegate].queue| > |n.post.parcels[t].carried|
            && var p := RetriedPlan(n, t); var m := BeginDelivery(n, p);
            OneHolder(m.post.claims, m.post.receipts) <==>
              DeliveryStopped(n, p.delegate, p.owner) || (p.owner != NO_ID && AttentionReserved(n, p.owner))
  {
    TakenOverIsCurrent(s, id, did);
    TakeoverShape(s, id, did);
    StillOneHolder(s, id, did);
    var q := s.store.durable[id].queue;
    var n, t, at := PlanDelivery(s, id, did), s.post.claims[q[0].did], IndexIn(q, did);
    DidNamesDelegate(s.store.durable, |s.store.journal|, id, at);
    var p := RetriedPlan(n, t);
    assert n.store == s.store && n.post.receipts == s.post.receipts && n.nextToken >= s.nextToken;
    assert Minted(n.post.receipts.Keys, n.nextToken);
    hide DelivInv, CarryInv, WellFormed, Plannable, PlanDelivery, CarrierAhead, PlanCurrent, Genuine, Minted, DeliveryStopped, AttentionReserved, OneHolder,
         Admit, RefuseCarrier, IndexIn, HasReceipt;
    HandOverSame(Decide(n, p), 0);
    NoRetry(n, p);
    if DeliveryStopped(n, p.delegate, p.owner) { RefusedOnce(n, p); }
    else if p.owner != NO_ID && AttentionReserved(n, p.owner) { }
    else { AdmittedTwice(n, p, at); }
  }

  lemma NoRetry(s: State, p: Plan)
    requires !HasReceipt(s, p.did)
    ensures !Retries(s, p)
  {
  }

  lemma StillOneHolder(s: State, id: Id, did: DeliveryId)
    requires DelivInv(s.post, s.store.durable) && Plannable(s, id, did) && IndexIn(s.store.durable[id].queue, did) > 0
    ensures var n := PlanDelivery(s, id, did); OneHolder(n.post.claims, n.post.receipts)
  {
    hide ParcelsOk, KeysOk, OwnersOk, CarriersOk, HeldOk, ReceiverOf, ColdDeliveryWork, DeliveryStopped, IndexIn, Unregister;
    var q := s.store.durable[id].queue;
    var at := IndexIn(q, did);
    assert q[..at][0] == q[0];
  }

  // ---- Runs whose holds are at rest ----

  /** `o` is starting on an attention. */
  predicate Waking(s: State, o: Id) {
    o != NO_ID && AttentionReserved(s, o)
  }

  /** Held or carrying: a claim whose owner sits in a turn. */
  predicate Bound(c: Parcel) {
    c.held || c.carried != []
  }

  ghost predicate ClaimsRest(s: State) {
    forall key | key in s.post.claims && s.post.claims[key] in s.post.parcels && Bound(s.post.parcels[s.post.claims[key]]) ::
      !Waking(s, s.post.parcels[s.post.claims[key]].owner)
  }

  ghost predicate ReceiptsRest(s: State) {
    forall r | r in s.post.receipts && s.post.receipts[r].held in s.post.parcels ::
      s.post.receipts[r].owner == s.post.parcels[s.post.receipts[r].held].owner && !Waking(s, s.post.receipts[r].owner)
  }

  /** No carrier was refused, and each goes to the owner that held its head. */
  ghost predicate CarriersRest(parcels: map<Token, Parcel>) {
    forall t | t in parcels && parcels[t].carried != [] ::
      !parcels[t].refused && (parcels[t].heldClaim in parcels ==> parcels[parcels[t].heldClaim].owner == parcels[t].owner)
  }

  ghost predicate RestInv(s: State) {
    ClaimsRest(s) && ReceiptsRest(s) && CarriersRest(s.post.parcels)
  }

  /** At rest no carrier is held, so none takes over from another. */
  lemma RestIsExclusive(s: State)
    requires Inv(s) && CarriersRest(s.post.parcels)
    ensures !Overtaken(s.post.parcels) && DelivInv(s.post, s.store.durable)
  {
    hide CoreInv, StopAlwaysWins, LaneInv, CarryInv, NoStoppedClaim, WaitInv, ReclInv, DelivInv, Overtaken;
    if Overtaken(s.post.parcels) { OvertakenWasHeld(s.post, s.runs.live, s.store.durable); }
  }

  // ---- Steps that plan and deliver nothing ----

  /** Whoever starts on an attention meanwhile has no delivery work. */
  ghost predicate WakesIdle(s: State, n: State) {
    forall o | Waking(n, o) :: Waking(s, o) || !DeliveryWork(s, o, false)
  }

  ghost predicate SameReceipts(receipts: map<Token, Receipt>, receipts': map<Token, Receipt>) {
    forall t | t in receipts' :: t in receipts && receipts'[t].held == receipts[t].held && receipts'[t].owner == receipts[t].owner
  }

  lemma RestAlong(s: State, n: State)
    requires RestInv(s) && n.post.parcels == s.post.parcels && FewerClaims(s.post.claims, n.post.claims) && SameReceipts(s.post.receipts, n.post.receipts)
    requires WakesIdle(s, n)
    ensures RestInv(n)
  {
    hide AttentionReserved;
  }

  predicate SameStart(a: Reservation, b: Reservation) {
    a.id == b.id && a.trigger == b.trigger
  }

  lemma SameWakes(s: State, n: State)
    requires forall t | t in n.runs.reservations :: t in s.runs.reservations && SameStart(s.runs.reservations[t], n.runs.reservations[t])
    ensures WakesIdle(s, n)
  {
    hide DeliveryWork;
    forall o | Waking(n, o) ensures Waking(s, o) {
      var t :| t in n.runs.reservations && n.runs.reservations[t].id == o && n.runs.reservations[t].trigger == AttentionTrigger;
      assert t in s.runs.reservations;
    }
  }

  lemma ReservedWakes(s: State, r: Reservation)
    requires r.trigger == AttentionTrigger ==> !DeliveryWork(s, r.id, false)
    ensures WakesIdle(s, Reserve(s, r))
  {
    hide DeliveryWork, CapacityLeft;
    var n := Reserve(s, r);
    forall o | Waking(n, o) ensures Waking(s, o) || !DeliveryWork(s, o, false) {
      var t :| t in n.runs.reservations && n.runs.reservations[t].id == o && n.runs.reservations[t].trigger == AttentionTrigger;
      if n.runs.reservations[t] != r { assert t in s.runs.reservations; }
    }
  }

  lemma ReservingWakes(s: State, x: StartStep)
    requires x.DoReserveCreate? || x.DoReserveStart? || x.DoReserveAttention? || x.DoReserveOwedAttention?
    ensures WakesIdle(s, NextStart(s, x))
  {
    hide Reserve, LaneCovers, Fenced, Admitted, Authorized, HasReservation, DeliveryWork, ResidentAt, Reclaimed, FreshId, WakesIdle;
    var n := NextStart(s, x);
    SameWakes(s, s);
    if n != s {
      if x.DoReserveCreate? {
        ReservedWakes(s, Reservation(x.newId, 1, InitialTrigger, true, if x.actor.Some? then x.actor.value.id else NO_ID, 0, 0));
      } else if x.DoReserveStart? {
        ReservedWakes(s, Reservation(x.target, s.store.durable[x.target].generation + 1, OwnerInput, false, s.store.durable[x.target].parent, 0, 0));
      } else if x.DoReserveAttention? {
        ReservedWakes(s, Reservation(x.target, s.store.durable[x.target].generation + 1, AttentionTrigger, false, s.store.durable[x.target].parent, x.runtime, 0));
      } else {
        ReservedWakes(s, Reservation(x.target, x.generation, AttentionTrigger, false, s.store.durable[x.target].parent, 0, 0));
      }
    }
  }

  lemma StartRests(s: State, x: StartStep)
    requires RestInv(s)
    ensures RestInv(NextStart(s, x))
  {
    hide RestInv, WakesIdle, ReserveCreate, ReserveStart, ReserveAttention, ReserveOwedAttention, AttachRuntime, AttachIdleRuntime, BeginStartInput,
         CompleteStartInput, FailCommitted, CommitRefused, Append, StartEvents, AddChildEdge, Started, Moved, WakesAfterStart, UntrackStart;
    if x.DoReserveCreate? || x.DoReserveStart? || x.DoReserveAttention? || x.DoReserveOwedAttention? { ReservingWakes(s, x); }
    else { SameWakes(s, NextStart(s, x)); }
    StartPost(s, x);
    RestAlong(s, NextStart(s, x));
  }

  lemma StartPost(s: State, x: StartStep)
    ensures var n := NextStart(s, x); n.post.parcels == s.post.parcels && n.post.claims == s.post.claims && n.post.receipts == s.post.receipts
  {
    hide ReserveCreate, ReserveStart, ReserveAttention, ReserveOwedAttention, AttachRuntime, AttachIdleRuntime, BeginStartInput, RegisterWaiter, CommitStart,
         CompleteStartInput, FailCommitted, ReleaseReservation;
  }

  lemma FinishRests(s: State, x: FinishStep)
    requires RestInv(s)
    ensures RestInv(NextFinish(s, x))
  {
    hide RestInv, WakesIdle, FinishGeneration, BeginFinalization, CompleteSettlement, FinishNoAction, PrepareNoAction, RequireRecovery,
         ReportQuiesced, AdmitReportWork, RecordNoAction, RecordTerminalSeen;
    SameWakes(s, NextFinish(s, x));
    RestAlong(s, NextFinish(s, x));
  }

  lemma ClaimRests(s: State, x: ClaimStep)
    requires RestInv(s)
    ensures RestInv(NextClaim(s, x))
  {
    hide RestInv, WakesIdle, BeginSteer, CompleteSteer, AbortSteer, BeginModel, CompleteModel, AbortModel, BeginWork, CommitWork, AbortWork,
         FinishWork, BeginQuiet, CompleteQuiet, BeginEnqueue, CompleteEnqueue, AbortEnqueue, AcquireWatch, CompleteWatch;
    SameWakes(s, NextClaim(s, x));
    RestAlong(s, NextClaim(s, x));
  }

  lemma FenceRests(s: State, x: FenceStep)
    requires RestInv(s)
    ensures RestInv(NextFence(s, x))
  {
    hide RestInv, WakesIdle, NextFence;
    FenceFrame(s, x);
    SameWakes(s, NextFence(s, x));
    RestAlong(s, NextFence(s, x));
  }

  lemma StopRests(s: State, x: StopStep)
    requires RestInv(s)
    ensures RestInv(NextStop(s, x))
  {
    if x.DoRestart? {
      RestartRests(s, x.wakes);
    } else {
      hide RestInv, WakesIdle, RecoverStopped, CompleteStop, LoseRuntime, ForgetLost, BeginClosing, CloseResumability, CloseUnrestorable,
           Restart, OpenAttention, ForgetAttention, Snapshot, Append, AttentionBlocks, Subtree, ClaimsIn, WaitersIn, OweAll, Authorized;
      SameWakes(s, NextStop(s, x));
      RestAlong(s, NextStop(s, x));
    }
  }

  lemma RestartRests(s: State, pending: map<Id, set<nat>>)
    ensures RestInv(Restart(s, pending))
  {
    hide RestoredStop, OwedWakes;
  }

  // ---- Planning ----

  ghost predicate NoHeldCarrier(parcels: map<Token, Parcel>) {
    forall t | t in parcels && parcels[t].carried != [] :: !parcels[t].held
  }

  lemma RestHoldsNoCarrier(p: Post, live: map<Id, Live>, d: Durable)
    requires CarryInv(p, live, d) && CarriersRest(p.parcels)
    ensures NoHeldCarrier(p.parcels)
  {
    hide CarryInv;
    forall t | t in p.parcels && p.parcels[t].carried != [] ensures !p.parcels[t].held {
      if p.parcels[t].held { HeldCarrierWasRefused(p, live, d, t); }
    }
  }

  /** The claim a carrier took its head from. */
  predicate HeadHeld(p: Post, c: Parcel)
    requires c.carried != []
  {
    && c.carried[0].did in p.claims && p.claims[c.carried[0].did] == c.heldClaim
    && c.heldClaim in p.parcels && p.parcels[c.heldClaim].held && p.parcels[c.heldClaim].owner == c.owner
  }

  /** A carrier is planned over a claim its owner holds. */
  lemma PlannedOwner(s: State, id: Id, did: DeliveryId)
    requires Plannable(s, id, did) && DelivInv(s.post, s.store.durable) && WellFormed(s.store.durable, |s.store.journal|) && NoHeldCarrier(s.post.parcels)
    ensures var c := PlannedParcel(s, id, did);
            !c.held && !c.refused && c.owner == s.store.durable[id].parent && (c.carried != [] ==> HeadHeld(s.post, c))
  {
    hide ReceiverOf, ColdDeliveryWork, DeliveryStopped, HasReceipt, WellFormed, CarriersOk, OneHolder, HeldOk;
    var q := s.store.durable[id].queue;
    var at := IndexIn(q, did);
    DidNamesDelegate(s.store.durable, |s.store.journal|, id, at);
    if at > 0 {
      DidNamesDelegate(s.store.durable, |s.store.journal|, id, 0);
      var c := PlannedParcel(s, id, did);
      assert c.carried[0] == q[0];
      assert KeyOk(s.post.parcels, q[0].did, c.heldClaim) && ParcelOk(s.post.parcels, s.post.parcels[c.heldClaim]);
    }
  }

  lemma MintRests(s: State, n: State, t: Token, c: Parcel)
    requires t != 0 && RestInv(s) && Mints(s.post, n.post, t, c) && n.runs.reservations == s.runs.reservations && KeysOk(s.post.claims, s.post.parcels)
    requires HeldReceipts(s.post.receipts, s.post.parcels) && MintsOk(s.post.parcels, s.runs.live, s.store.durable) && MintOk(n.post.parcels, t, c, n.runs.live, n.store.durable)
    requires !c.held && !c.refused && (c.carried != [] ==> HeadHeld(s.post, c))
    ensures RestInv(n)
  {
    assert forall o :: AttentionReserved(n, o) <==> AttentionReserved(s, o);
    forall u | u in s.post.parcels && s.post.parcels[u].carried != [] ensures s.post.parcels[u].heldClaim in s.post.parcels {
      assert MintOk(s.post.parcels, u, s.post.parcels[u], s.runs.live, s.store.durable);
    }
    hide AttentionReserved, WaitersAt, TakenFrom, MintsOk;
    forall key | key in n.post.claims && n.post.claims[key] in n.post.parcels && Bound(n.post.parcels[n.post.claims[key]])
      ensures !Waking(n, n.post.parcels[n.post.claims[key]].owner)
    {
      if n.post.claims[key] != t { assert KeyOk(s.post.parcels, key, s.post.claims[key]); }
    }
  }

  lemma PlanRests(s: State, id: Id, did: DeliveryId)
    requires RestInv(s) && CarryInv(s.post, s.runs.live, s.store.durable) && DelivInv(s.post, s.store.durable)
    requires WellFormed(s.store.durable, |s.store.journal|) && NoZeroWaiter(s.runs.live) && Minted(s.post.parcels.Keys, s.nextToken)
    ensures RestInv(PlanDelivery(s, id, did))
  {
    hide RestInv, DelivInv, WellFormed, Plannable, Mints, WaitersApart, NoZeroWaiter, Minted, IndexIn, PlannedParcel, NoHeldCarrier, KeysOk, MintsOk,
         SiblingsOk, HeldReceipts, PlanDelivery, WaitersAt, TakenFrom, CarriersRest;
    var n := PlanDelivery(s, id, did);
    if Plannable(s, id, did) {
      RestCarriers(s);
      RestHoldsNoCarrier(s.post, s.runs.live, s.store.durable);
      PlannedOwner(s, id, did);
      PlannedTaken(s, id, did);
      PlannedWaiter(s, id, did);
      MintsTo(s.post, n.post, s.nextToken + 1, PlannedParcel(s, id, did));
      MintRests(s, n, s.nextToken + 1, PlannedParcel(s, id, did));
    } else {
      NotPlanned(s, id, did);
    }
  }

  lemma RestCarriers(s: State)
    requires RestInv(s)
    ensures CarriersRest(s.post.parcels)
  {
    hide ClaimsRest, ReceiptsRest, CarriersRest;
  }

  // ---- Delivering ----

  /** A held claim comes back while its owner is not starting. */
  lemma RestoreRests(s: State, n: State, held: Token)
    requires RestInv(s) && n.runs.reservations == s.runs.reservations && n.post.parcels == s.post.parcels && SameReceipts(s.post.receipts, n.post.receipts)
    requires held in s.post.parcels && !Waking(s, s.post.parcels[held].owner)
    requires forall k | k in n.post.claims :: (k in s.post.claims && n.post.claims[k] == s.post.claims[k]) || n.post.claims[k] == held
    ensures RestInv(n)
  {
    assert forall o :: AttentionReserved(n, o) <==> AttentionReserved(s, o);
    hide AttentionReserved;
  }

  lemma RefuseRests(s: State, p: Plan)
    requires RestInv(s) && MintsOk(s.post.parcels, s.runs.live, s.store.durable) && Genuine(s, p)
    ensures RestInv(RefuseCarrier(s, p))
  {
    var n := RefuseCarrier(s, p);
    if p.carried != [] {
      CarrierHeld(s, p);
      RestoreHeldClaims(s, p.heldClaim);
      if ClaimIs(s, p.carried[0].did, p.claim) {
        OwnerIsResting(s, p);
        hide RestInv, MintsOk, Genuine, RestoreHeld, Waking;
        RestoreRests(s, n, p.heldClaim);
      } else {
        hide RestInv, MintsOk, Genuine, RestoreHeld, WakesIdle;
        SameWakes(s, n);
        RestAlong(s, n);
      }
    }
  }

  lemma OwnerIsResting(s: State, p: Plan)
    requires RestInv(s) && Genuine(s, p) && p.carried != [] && p.heldClaim in s.post.parcels && ClaimIs(s, p.carried[0].did, p.claim)
    ensures !Waking(s, s.post.parcels[p.heldClaim].owner)
  {
    hide Waking;
    assert Bound(s.post.parcels[p.claim]);
  }

  lemma FlagRests(s: State, n: State, t: Token)
    requires RestInv(s) && t in s.post.parcels && s.post.parcels[t].carried == []
    requires n == s.(post := s.post.(parcels := s.post.parcels[t := s.post.parcels[t].(waiter := 0, refused := true)]))
    ensures RestInv(n)
  {
    assert forall o :: AttentionReserved(n, o) <==> AttentionReserved(s, o);
    hide AttentionReserved;
  }

  lemma AdmitRests(s: State, p: Plan)
    requires RestInv(s) && Genuine(s, p) && PlanCurrent(s, p) && Minted(s.post.receipts.Keys, s.nextToken) && Minted(s.post.parcels.Keys, s.nextToken)
    ensures RestInv(Admit(s, p))
  {
    var n := Admit(s, p);
    assert forall o :: AttentionReserved(n, o) <==> AttentionReserved(s, o);
    AdmittedClaims(s, p);
    hide AttentionReserved, Admit;
    assert 0 !in s.post.parcels;
    forall r | r in n.post.receipts && n.post.receipts[r].held in n.post.parcels
      ensures n.post.receipts[r].owner == n.post.parcels[n.post.receipts[r].held].owner && !Waking(n, n.post.receipts[r].owner)
    {
      AdmittedReceipts(s, p, r);
      if r !in s.post.receipts {
        AdmittedOwners(s, p, r);
        assert Bound(s.post.parcels[p.claim]);
      }
    }
  }

  lemma AdmittedOwners(s: State, p: Plan, u: Token)
    requires p.claim in s.post.parcels && Minted(s.post.receipts.Keys, s.nextToken) && u in Admit(s, p).post.receipts && u !in s.post.receipts
    ensures Admit(s, p).post.receipts[u].owner == p.owner
  {
    var cold, inline := s.post.parcels[p.claim].cold, p.waiter != 0 || p.callerCommitted;
    hide AdmitCarried;
    if p.carried != [] && u != s.nextToken + |p.carried| + 1 { CarriedOwners(s.post.receipts, p, cold, inline, s.nextToken, |p.carried|, u); }
  }

  lemma {:induction false} CarriedOwners(receipts: map<Token, Receipt>, p: Plan, cold: bool, inline: bool, next: Token, k: nat, u: Token)
    requires 1 <= k <= |p.carried| && u !in receipts && u in AdmitCarried(receipts, p, cold, inline, next, k)
    ensures AdmitCarried(receipts, p, cold, inline, next, k)[u].owner == p.owner
  {
    if k > 1 && u != next + k { CarriedOwners(receipts, p, cold, inline, next, k - 1, u); }
  }

  /** A current carrier's owner is not starting, so no carrier is refused for that. */
  lemma CarrierIsNotRefused(s: State, p: Plan)
    requires RestInv(s) && PlanCurrent(s, p) && Waking(s, p.owner)
    ensures p.claim in s.post.parcels && s.post.parcels[p.claim].carried == []
  {
    hide Waking;
  }

  lemma DecideRests(s: State, p: Plan)
    requires RestInv(s) && MintsOk(s.post.parcels, s.runs.live, s.store.durable) && Genuine(s, p)
    requires Minted(s.post.receipts.Keys, s.nextToken) && Minted(s.post.parcels.Keys, s.nextToken)
    ensures RestInv(Decide(s, p))
  {
    hide RestInv, MintsOk, Genuine, PlanCurrent, RefuseCarrier, Admit, Minted, HasReceipt, DeliveryStopped, AttentionReserved, WakesIdle;
    var cut := s.(post := s.post.(claims := s.post.claims - {p.did}));
    if HasReceipt(s, p.did) || !PlanCurrent(s, p) {
      RefuseRests(s, p);
    } else if DeliveryStopped(s, p.delegate, p.owner) {
      SameWakes(s, cut);
      RestAlong(s, cut);
      GenuineStill(s, p);
      RefuseRests(cut, p);
    } else if Waking(s, p.owner) {
      CarrierIsNotRefused(s, p);
      FlagRests(s, Decide(s, p), p.claim);
    } else {
      AdmitRests(s, p);
    }
  }

  lemma BeginRests(s: State, p: Plan)
    requires RestInv(s) && MintsOk(s.post.parcels, s.runs.live, s.store.durable)
    requires Minted(s.post.receipts.Keys, s.nextToken) && Minted(s.post.parcels.Keys, s.nextToken)
    ensures RestInv(BeginDelivery(s, p))
  {
    hide RestInv, MintsOk, Genuine, Decide, Minted, RetryMatches, WakesIdle;
    var n := BeginDelivery(s, p);
    if Genuine(s, p) && !Retries(s, p) {
      DecideRests(s, p);
      SameWakes(Decide(s, p), n);
      RestAlong(Decide(s, p), n);
    } else {
      SameWakes(s, n);
      RestAlong(s, n);
    }
  }

  lemma CompleteRests(s: State, t: Token, committed: bool, wake: nat, storeOk: bool)
    requires RestInv(s) && HeldReceipts(s.post.receipts, s.post.parcels)
    ensures RestInv(CompleteDelivery(s, t, committed, wake, storeOk))
  {
    var n := CompleteDelivery(s, t, committed, wake, storeOk);
    if t in s.post.receipts && !committed && s.post.receipts[t].held != 0 && s.post.receipts[t].did !in s.post.claims {
      var held := s.post.receipts[t].held;
      assert !Waking(s, s.post.parcels[held].owner);
      RestoreHeldClaims(s, held);
      hide RestInv, RestoreHeld, Append, Note, UntrackReceipt, Waking;
      RestoreRests(s, n, held);
    } else {
      hide RestInv, RestoreHeld, Append, Note, UntrackReceipt, WakesIdle;
      SameWakes(s, n);
      RestAlong(s, n);
    }
  }

  lemma HoldRests(s: State, p: Plan)
    requires RestInv(s) && (p.claim in s.post.parcels ==> !Waking(s, s.post.parcels[p.claim].owner))
    ensures RestInv(HoldClaim(s, p))
  {
    var n := HoldClaim(s, p);
    assert forall o :: AttentionReserved(n, o) <==> AttentionReserved(s, o);
    hide AttentionReserved, Genuine, ClaimIs;
  }

  lemma SteadyRests(s: State, x: DeliverStep)
    requires RestInv(s) && !x.DoPlanDelivery? && !x.DoBeginDelivery? && !x.DoCompleteDelivery? && !x.DoHoldClaim?
    ensures RestInv(NextDeliver(s, x))
  {
    hide RestInv, WakesIdle, WithdrawWaiter, DropStoppedWaiter, PostUpdate, Genuine;
    SameWakes(s, NextDeliver(s, x));
    RestAlong(s, NextDeliver(s, x));
  }

  /** Nobody holds a claim for an owner that is starting on an attention: a receiver defers only what reaches it in a turn. */
  predicate HoldsAtRest(s: State, step: Step) {
    step.Delivers? && step.deliver.DoHoldClaim? && step.deliver.plan.claim in s.post.parcels ==>
      !Waking(s, s.post.parcels[step.deliver.plan.claim].owner)
  }

  lemma DeliverRests(s: State, x: DeliverStep)
    requires RestInv(s) && HoldsAtRest(s, Delivers(x)) && CarryInv(s.post, s.runs.live, s.store.durable) && DelivInv(s.post, s.store.durable)
    requires WellFormed(s.store.durable, |s.store.journal|) && NoZeroWaiter(s.runs.live)
    requires Minted(s.post.receipts.Keys, s.nextToken) && Minted(s.post.parcels.Keys, s.nextToken)
    ensures RestInv(NextDeliver(s, x))
  {
    hide RestInv, KeysOk, MintsOk, SiblingsOk, HeldReceipts, DelivInv, WellFormed, NoZeroWaiter, Minted, Waking, PostUpdate, PlanDelivery, BeginDelivery,
         CompleteDelivery, LeaveForRetry, HoldClaim, DropClaim, WithdrawWaiter, DropStoppedWaiter, AnswerWaiter;
    match x
    case DoPlanDelivery(id, did) => PlanRests(s, id, did);
    case DoBeginDelivery(p) => BeginRests(s, p);
    case DoCompleteDelivery(t, c, w, ok) => CompleteRests(s, t, c, w, ok);
    case DoHoldClaim(p) => HoldRests(s, p);
    case _ => SteadyRests(s, x);
  }

  // ---- Every run ----

  lemma DeliveryParts(s: State)
    requires Inv(s)
    ensures WellFormed(s.store.durable, |s.store.journal|) && NoZeroWaiter(s.runs.live) && CarryInv(s.post, s.runs.live, s.store.durable)
    ensures Minted(s.post.receipts.Keys, s.nextToken) && Minted(s.post.parcels.Keys, s.nextToken)
  {
    hide CoreInv, StopAlwaysWins, LaneInv, CarryInv, InHand, NoStoppedClaim, WaitInv, ReclInv, TokInv, Minted, NoZeroWaiter, WellFormed, Fold, StopShape;
    CoreParts(s);
    WaitersAreMinted(s);
  }

  lemma StepRests(s: State, step: Step)
    requires Inv(s) && RestInv(s) && HoldsAtRest(s, step)
    ensures RestInv(Next(s, step))
  {
    hide Inv, RestInv, HoldsAtRest, CarryInv, DelivInv, WellFormed, NoZeroWaiter, Minted, Overtaken, CarriersRest, NextStart, NextFinish, NextClaim, NextDeliver,
         NextStop, NextFence;
    RestCarriers(s);
    RestIsExclusive(s);
    DeliveryParts(s);
    match step
    case Starts(x) => StartRests(s, x);
    case Finishes(x) => FinishRests(s, x);
    case ClaimsWork(x) => ClaimRests(s, x);
    case Delivers(x) => DeliverRests(s, x);
    case Stops(x) => StopRests(s, x);
    case FencesOff(x) => FenceRests(s, x);
  }

  /** Every hold of the run found its owner not starting on an attention. */
  ghost predicate AlwaysAtRest(s: State, steps: seq<Step>) {
    hide Run; forall k | 0 <= k < |steps| :: HoldsAtRest(Run(s, steps[..k]), steps[k])
  }

  lemma {:induction false} RunRests(limits: Limits, steps: seq<Step>)
    requires AlwaysAtRest(Init(limits), steps)
    ensures RestInv(Run(Init(limits), steps))
  {
    hide Inv, Next, HoldsAtRest, RestInv;
    if steps == [] {
      InitRests(limits);
    } else {
      var init, k := steps[..|steps| - 1], |steps| - 1;
      forall j | 0 <= j < |init| ensures HoldsAtRest(Run(Init(limits), init[..j]), init[j]) {
        assert init[..j] == steps[..j] && HoldsAtRest(Run(Init(limits), steps[..j]), steps[j]);
      }
      RunRests(limits, init);
      RunKeepsInv(limits, init);
      assert HoldsAtRest(Run(Init(limits), steps[..k]), steps[k]);
      StepRests(Run(Init(limits), init), steps[k]);
    }
  }

  lemma InitRests(limits: Limits)
    ensures RestInv(Init(limits))
  {
  }

  /** Deliveries exclusive, and no carrier refused or held. */
  ghost predicate ExclusiveAtRest(s: State) {
    && OneHolder(s.post.claims, s.post.receipts)
    && forall t | t in s.post.parcels && s.post.parcels[t].carried != [] :: !s.post.parcels[t].refused && !s.post.parcels[t].held
  }

  /** In every run whose holds find their owner not starting on an attention, no carrier is refused, none is held, and no
      delivery ever has two holders. */
  lemma RestingRunsAreExclusive(limits: Limits, steps: seq<Step>)
    requires AlwaysAtRest(Init(limits), steps)
    ensures ExclusiveAtRest(Run(Init(limits), steps))
  {
    hide Inv, Run, AlwaysAtRest, ClaimsRest, ReceiptsRest, CarryInv, OneHolder, Overtaken, ParcelsOk, KeysOk, OwnersOk, CarriersOk, HeldOk;
    var s := Run(Init(limits), steps);
    RunKeepsInv(limits, steps);
    RunRests(limits, steps);
    RestIsExclusive(s);
    DeliveryParts(s);
    RestHoldsNoCarrier(s.post, s.runs.live, s.store.durable);
  }
}
