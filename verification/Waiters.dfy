/** An inline waiter is in one place, only moves forward, and is answered once. */
module Waiters {
  import opened Types
  import opened Tree
  import opened State
  import opened Finishing
  import opened Starting
  import opened Claims
  import opened Delivering
  import opened Stopping
  import opened Fences
  import opened Machine
  import opened Invariants
  import opened Exclusive
  import opened Carriers

  // ---- Where waiters are ----

  ghost predicate ReservedOk(waiters: map<Token, WaiterState>, res: map<Token, Reservation>) {
    && (forall t | t in res && res[t].waiter != 0 :: res[t].waiter in waiters && waiters[res[t].waiter] == Reserved(t))
    && (forall w | w in waiters && waiters[w].Reserved? :: waiters[w].reservation in res && res[waiters[w].reservation].waiter == w)
  }

  ghost predicate RegisteredOk(waiters: map<Token, WaiterState>, live: map<Id, Live>) {
    && (forall i, g | g in WaitersAt(live, i) :: WaitersAt(live, i)[g] in waiters && waiters[WaitersAt(live, i)[g]] == Registered(i, g))
    && (forall w | w in waiters && waiters[w].Registered? ::
          waiters[w].generation in WaitersAt(live, waiters[w].id) && WaitersAt(live, waiters[w].id)[waiters[w].generation] == w)
  }

  /** A claimed waiter's claim is still there: whoever deletes the claim moves the waiter on. */
  ghost predicate ClaimedOk(waiters: map<Token, WaiterState>, claims: map<DeliveryId, Token>, parcels: map<Token, Parcel>) {
    forall w | w in waiters && waiters[w].Claimed? ::
      var t := waiters[w].parcel;
      t in parcels && parcels[t].waiter == w && parcels[t].planWaiter == w && parcels[t].did in claims && claims[parcels[t].did] == t
  }

  ghost predicate HeldWaitless(parcels: map<Token, Parcel>) {
    forall t | t in parcels && parcels[t].held :: parcels[t].waiter == 0
  }

  ghost predicate WaitInv(p: Post, res: map<Token, Reservation>, live: map<Id, Live>) {
    && ReservedOk(p.waiters, res) && RegisteredOk(p.waiters, live) && ClaimedOk(p.waiters, p.claims, p.parcels) && HeldWaitless(p.parcels)
  }

  // ---- How they move ----

  predicate Forward(a: WaiterState, b: WaiterState) {
    || a == b
    || (a.Reserved? && (b.Registered? || b.Discarded?))
    || (a.Registered? && (b.Claimed? || b.Withdrawn?))
    || (a.Claimed? && (b.Owed? || b.Answered?))
    || (a.Owed? && b.Answered?)
  }

  ghost predicate Onward(ws: map<Token, WaiterState>, ws': map<Token, WaiterState>) {
    forall w | w in ws :: w in ws' && Forward(ws[w], ws'[w])
  }

  lemma SteadyWaiters(p: Post, p': Post, res: map<Token, Reservation>, live: map<Id, Live>, live': map<Id, Live>)
    requires WaitInv(p, res, live) && SameWaiters(live, live')
    requires p'.waiters == p.waiters && p'.claims == p.claims && p'.parcels == p.parcels
    ensures WaitInv(p', res, live') && Onward(p.waiters, p'.waiters)
  {
    hide ReservedOk, ClaimedOk, HeldWaitless;
    assert forall i :: WaitersAt(live, i) == WaitersAt(live', i);
  }

  // ---- Starts ----

  lemma ReservedWaiters(ws: map<Token, WaiterState>, res: map<Token, Reservation>, t: Token, r: Reservation)
    requires ReservedOk(ws, res) && t !in res && r.waiter == 0
    ensures ReservedOk(ws, res[t := r])
  {
  }

  lemma ReserveWaiters(s: State, r: Reservation)
    requires WaitInv(s.post, s.runs.reservations, s.runs.live) && r.waiter == 0 && Minted(s.runs.reservations.Keys, s.nextToken)
    ensures WaitInv(s.post, Reserve(s, r).runs.reservations, s.runs.live)
  {
    assert s.nextToken + 1 !in s.runs.reservations;
    hide ReservedOk, RegisteredOk, ClaimedOk, HeldWaitless;
    ReservedWaiters(s.post.waiters, s.runs.reservations, s.nextToken + 1, r);
  }

  lemma RegisterWaiters(s: State, t: Token)
    requires WaitInv(s.post, s.runs.reservations, s.runs.live) && Minted(s.post.waiters.Keys, s.nextToken)
    ensures var n := RegisterWaiter(s, t); WaitInv(n.post, n.runs.reservations, n.runs.live) && Onward(s.post.waiters, n.post.waiters)
  {
    assert s.nextToken + 1 !in s.post.waiters;
  }

  lemma ReleasedWaiters(s: State, t: Token)
    requires WaitInv(s.post, s.runs.reservations, s.runs.live) && Minted(s.post.waiters.Keys, s.nextToken)
    ensures var n := ReleaseReservation(s, t); WaitInv(n.post, n.runs.reservations, n.runs.live) && Onward(s.post.waiters, n.post.waiters)
  {
    hide UntrackStart;
    assert 0 !in s.post.waiters;
  }

  lemma CommittedReserved(ws: map<Token, WaiterState>, res: map<Token, Reservation>, t: Token)
    requires ReservedOk(ws, res) && t in res && 0 !in ws
    ensures ReservedOk(Moved(ws, res[t].waiter, Registered(res[t].id, res[t].generation)), res - {t})
    ensures res[t].waiter != 0 ==> res[t].waiter in ws && ws[res[t].waiter] == Reserved(t)
  {
  }

  lemma CommittedRegistered(ws: map<Token, WaiterState>, live: map<Id, Live>, live': map<Id, Live>, r: Reservation)
    requires RegisteredOk(ws, live) && 0 !in ws && (r.waiter != 0 ==> r.waiter in ws && ws[r.waiter].Reserved? && r.generation !in WaitersAt(live, r.id))
    requires forall i | i != r.id :: WaitersAt(live', i) == WaitersAt(live, i)
    requires WaitersAt(live', r.id) == if r.waiter != 0 then WaitersAt(live, r.id)[r.generation := r.waiter] else WaitersAt(live, r.id)
    ensures RegisteredOk(Moved(ws, r.waiter, Registered(r.id, r.generation)), live')
  {
  }

  lemma CommittedClaimed(ws: map<Token, WaiterState>, claims: map<DeliveryId, Token>, parcels: map<Token, Parcel>, w: Token, id: Id, g: nat)
    requires ClaimedOk(ws, claims, parcels)
    ensures ClaimedOk(Moved(ws, w, Registered(id, g)), claims, parcels)
  {
  }

  lemma StartedWaiters(live: map<Id, Live>, live': map<Id, Live>, r: Reservation)
    requires live' == live[r.id := StartedLive(if r.id in live then live[r.id] else NO_LIVE, r)]
    ensures forall i | i != r.id :: WaitersAt(live', i) == WaitersAt(live, i)
    ensures WaitersAt(live', r.id) == if r.waiter != 0 then WaitersAt(live, r.id)[r.generation := r.waiter] else WaitersAt(live, r.id)
  {
  }

  lemma CommittedWaiters(p: Post, p': Post, res: map<Token, Reservation>, t: Token, live: map<Id, Live>, live': map<Id, Live>)
    requires WaitInv(p, res, live) && t in res && 0 !in p.waiters && (res[t].waiter != 0 ==> res[t].generation !in WaitersAt(live, res[t].id))
    requires live' == live[res[t].id := StartedLive(if res[t].id in live then live[res[t].id] else NO_LIVE, res[t])]
    requires p'.waiters == Moved(p.waiters, res[t].waiter, Registered(res[t].id, res[t].generation)) && p'.claims == p.claims && p'.parcels == p.parcels
    ensures WaitInv(p', res - {t}, live') && Onward(p.waiters, p'.waiters)
  {
    hide ReservedOk, RegisteredOk, ClaimedOk, HeldWaitless, StartedLive, WaitersAt;
    var r := res[t];
    StartedWaiters(live, live', r);
    CommittedReserved(p.waiters, res, t);
    CommittedRegistered(p.waiters, live, live', r);
    CommittedClaimed(p.waiters, p.claims, p.parcels, r.waiter, r.id, r.generation);
  }

  lemma CommitWaiters(s: State, t: Token, cancelled: bool, pending: set<nat>, storeOk: bool)
    requires WaitInv(s.post, s.runs.reservations, s.runs.live) && Minted(s.post.waiters.Keys, s.nextToken)
    ensures var n := CommitStart(s, t, cancelled, pending, storeOk);
            WaitInv(n.post, n.runs.reservations, n.runs.live) && Onward(s.post.waiters, n.post.waiters)
  {
    assert 0 !in s.post.waiters;
    ReleasedWaiters(s, t);
    hide WaitInv, Append, StartedLive, UntrackStart, AddChildEdge, StartEvents, LaneCovers, Fenced, DeliveryWork, ReleaseReservation, Moved, Minted;
    var n := CommitStart(s, t, cancelled, pending, storeOk);
    if t in s.runs.reservations && !CommitRefused(s, s.runs.reservations[t], cancelled) && Append(s, StartEvents(s.runs.reservations[t]), storeOk).Some? {
      CommittedWaiters(s.post, n.post, s.runs.reservations, t, s.runs.live, n.runs.live);
    }
  }

  lemma ReservingWaiters(s: State, x: StartStep)
    requires WaitInv(s.post, s.runs.reservations, s.runs.live) && Minted(s.runs.reservations.Keys, s.nextToken)
    requires x.DoReserveCreate? || x.DoReserveStart? || x.DoReserveAttention? || x.DoReserveOwedAttention?
    ensures var n := NextStart(s, x); WaitInv(n.post, n.runs.reservations, n.runs.live)
  {
    hide WaitInv, Reserve, LaneCovers, Fenced, Admitted, Authorized, HasReservation, DeliveryWork, ResidentAt, WakeEligible, Minted;
    var n := NextStart(s, x);
    if n != s {
      if x.DoReserveCreate? {
        ReserveWaiters(s, Reservation(x.newId, 1, InitialTrigger, true, if x.actor.Some? then x.actor.value.id else NO_ID, 0, 0));
      } else if x.DoReserveStart? {
        ReserveWaiters(s, Reservation(x.target, s.store.durable[x.target].generation + 1, OwnerInput, false, s.store.durable[x.target].parent, 0, 0));
      } else if x.DoReserveOwedAttention? {
        ReserveWaiters(s, Reservation(x.target, x.generation, AttentionTrigger, false, s.store.durable[x.target].parent, 0, 0));
      } else {
        EligibleIsKnown(s, x.target);
        ReserveWaiters(s, Reservation(x.target, s.store.durable[x.target].generation + 1, AttentionTrigger, false, s.store.durable[x.target].parent, x.runtime, 0));
      }
    }
  }

  lemma EligibleIsKnown(s: State, id: Id)
    requires WakeEligible(s, id)
    ensures id in s.store.durable
  {
  }

  lemma StartWaiters(s: State, x: StartStep)
    requires WaitInv(s.post, s.runs.reservations, s.runs.live) && Minted(s.runs.reservations.Keys, s.nextToken) && Minted(s.post.waiters.Keys, s.nextToken)
    ensures var n := NextStart(s, x); WaitInv(n.post, n.runs.reservations, n.runs.live) && Onward(s.post.waiters, n.post.waiters)
  {
    hide WaitInv, ReserveCreate, ReserveStart, ReserveAttention, ReserveOwedAttention, CommitStart, AttachRuntime, AttachIdleRuntime, SameWaiters,
         BeginStartInput, CompleteStartInput, FailCommitted, RegisterWaiter, ReleaseReservation, Minted;
    match x
    case DoRegisterWaiter(t) => RegisterWaiters(s, t);
    case DoAbortStart(t) => ReleasedWaiters(s, t);
    case DoCommitStart(t, c, p, ok) => CommitWaiters(s, t, c, p, ok);
    case DoReserveCreate(_, _) => ReservingWaiters(s, x);
    case DoReserveStart(_, _) => ReservingWaiters(s, x);
    case DoReserveAttention(_, _, _) => ReservingWaiters(s, x);
    case DoReserveOwedAttention(_, _, _) => ReservingWaiters(s, x);
    case _ => SteadyWaiters(s.post, NextStart(s, x).post, s.runs.reservations, s.runs.live, NextStart(s, x).runs.live);
  }

  // ---- Deliveries ----

  lemma LeavesRegistration(ws: map<Token, WaiterState>, live: map<Id, Live>, id: Id, g: nat, to: WaiterState)
    requires RegisteredOk(ws, live) && g in WaitersAt(live, id) && !to.Registered?
    ensures var w := WaitersAt(live, id)[g];
            w in ws && ws[w].Registered? && RegisteredOk(Moved(ws, w, to), Unregister(live, id, g))
  {
    var live' := Unregister(live, id, g);
    assert forall i :: WaitersAt(live', i) == if i == id then WaitersAt(live, i) - {g} else WaitersAt(live, i);
  }

  lemma LeavesReservations(ws: map<Token, WaiterState>, res: map<Token, Reservation>, w: Token, to: WaiterState)
    requires ReservedOk(ws, res) && (w in ws ==> ws[w].Registered?) && !to.Reserved?
    ensures ReservedOk(Moved(ws, w, to), res)
  {
  }

  /** A registered waiter is withdrawn. */
  lemma WithdrawnWaiter(p: Post, res: map<Token, Reservation>, live: map<Id, Live>, id: Id, g: nat)
    requires WaitInv(p, res, live) && g in WaitersAt(live, id)
    ensures var p' := p.(waiters := Moved(p.waiters, WaitersAt(live, id)[g], Withdrawn));
            WaitInv(p', res, Unregister(live, id, g)) && Onward(p.waiters, p'.waiters)
  {
    var w := WaitersAt(live, id)[g];
    LeavesRegistration(p.waiters, live, id, g, Withdrawn);
    LeavesReservations(p.waiters, res, w, Withdrawn);
    hide ReservedOk, RegisteredOk, Unregister;
  }

  lemma PlannedClaimed(p: Post, t: Token, c: Parcel, d: Durable)
    requires ClaimedOk(p.waiters, p.claims, p.parcels) && HeldWaitless(p.parcels) && Fresh(p, d, t, c) && 0 !in p.waiters
    requires c.waiter == c.planWaiter && !c.held
    ensures var q := WithPlan(p, t, c); ClaimedOk(Moved(p.waiters, c.waiter, Claimed(t)), q.claims, q.parcels) && HeldWaitless(q.parcels)
  {
    var q := WithPlan(p, t, c);
    assert c.carried != [] ==> c.carried[0] == d[c.delegate].queue[0];
    assert q.claims[c.did] == t;
  }

  lemma PlanWaiters(s: State, id: Id, did: DeliveryId)
    requires WaitInv(s.post, s.runs.reservations, s.runs.live) && Minted(s.post.waiters.Keys, s.nextToken) && Minted(s.post.parcels.Keys, s.nextToken)
    ensures var n := PlanDelivery(s, id, did); WaitInv(n.post, n.runs.reservations, n.runs.live) && Onward(s.post.waiters, n.post.waiters)
  {
    hide ReservedOk, RegisteredOk, ClaimedOk, HeldWaitless, Fresh, Plannable, Unregister;
    if Plannable(s, id, did) {
      var t, c, n := s.nextToken + 1, PlannedParcel(s, id, did), PlanDelivery(s, id, did);
      assert 0 !in s.post.waiters;
      PlannedIsFresh(s, id, did);
      PlannedFlags(s, id, did);
      PlannedClaimed(s.post, t, c, s.store.durable);
      if c.waiter != 0 {
        var g := s.store.durable[id].queue[IndexIn(s.store.durable[id].queue, did)].generation;
        LeavesRegistration(s.post.waiters, s.runs.live, id, g, Claimed(t));
      }
      LeavesReservations(s.post.waiters, s.runs.reservations, c.waiter, Claimed(t));
    }
  }

  lemma PlannedFlags(s: State, id: Id, did: DeliveryId)
    requires Plannable(s, id, did)
    ensures var c := PlannedParcel(s, id, did);
            && c.waiter == c.planWaiter && !c.held && c.did == did && id in s.store.durable && IndexIn(s.store.durable[id].queue, did) < |s.store.durable[id].queue|
            && (c.waiter != 0 ==> var g := s.store.durable[id].queue[IndexIn(s.store.durable[id].queue, did)].generation;
                                  g in WaitersAt(s.runs.live, id) && WaitersAt(s.runs.live, id)[g] == c.waiter)
  {
    hide DeliveryStopped, ReceiverOf, ColdDeliveryWork, Carriable;
  }

  /** `key` is the delivery of a claimant that answers a waiter. */
  predicate Waiting(p: Post, key: DeliveryId) {
    key in p.claims && p.claims[key] in p.parcels && p.parcels[p.claims[key]].did == key && p.parcels[p.claims[key]].waiter != 0
  }

  /** Claims of other parcels that answer a waiter stay where they are. */
  ghost predicate OthersStay(p: Post, p': Post, t: Token) {
    && (forall key | Waiting(p, key) && p.claims[key] != t :: key in p'.claims && p'.claims[key] == p.claims[key])
    && p'.parcels.Keys == p.parcels.Keys && (forall u | u in p.parcels && u != t :: p'.parcels[u] == p.parcels[u])
    && (t in p.parcels ==> p'.parcels[t].held == p.parcels[t].held && (p'.parcels[t].waiter == p.parcels[t].waiter || p'.parcels[t].waiter == 0))
  }

  /** Giving a held delivery back takes no claim from a parcel that answers a waiter. */
  lemma RestoreSpares(s: State, held: Token, key: DeliveryId)
    requires CarryInv(s.post, s.runs.live, s.store.durable) && held in s.post.parcels && s.post.parcels[held].held && Waiting(s.post, key)
    ensures key in RestoreHeld(s, held) && RestoreHeld(s, held)[key] == s.post.claims[key]
  {
    hide CarryInv, RestoreHeld;
    RestoreHeldClaims(s, held);
    if key == s.post.parcels[held].did { HeldHasNoWaitingSibling(s.post, s.runs.live, s.store.durable, held, s.post.claims[key]); }
  }

  lemma RefuseLeavesOthers(s: State, plan: Plan)
    requires CarryInv(s.post, s.runs.live, s.store.durable) && Genuine(s, plan)
    ensures OthersStay(s.post, RefuseCarrier(s, plan).post, plan.claim)
  {
    hide KeysOk, MintsOk, SiblingsOk, HeldReceipts, Genuine, RestoreHeld;
    if plan.carried != [] {
      CarrierHeld(s, plan);
      forall key | Waiting(s.post, key) && s.post.claims[key] != plan.claim
        ensures key in RestoreHeld(s, plan.heldClaim) && RestoreHeld(s, plan.heldClaim)[key] == s.post.claims[key]
      {
        RestoreSpares(s, plan.heldClaim, key);
      }
    }
  }

  lemma OthersStayVia(p: Post, q: Post, r: Post, t: Token)
    requires OthersStay(p, q, t) && OthersStay(q, r, t)
    ensures OthersStay(p, r, t)
  {
  }

  lemma AdmitLeavesOthers(s: State, plan: Plan)
    requires CarryInv(s.post, s.runs.live, s.store.durable) && Genuine(s, plan) && plan.claim in s.post.parcels && ClaimIs(s, plan.did, plan.claim)
    ensures OthersStay(s.post, Admit(s, plan).post, plan.claim)
  {
    hide AdmitCarried, KeysOk, MintsOk, SiblingsOk, HeldReceipts;
    if plan.carried != [] {
      HeadWasHeld(s.post.parcels, s.runs.live, s.store.durable, plan.claim);
      var b :| b in s.post.parcels && s.post.parcels[b].held && s.post.parcels[b].did == plan.carried[0].did;
      if Waiting(s.post, plan.carried[0].did) {
        HeldHasNoWaitingSibling(s.post, s.runs.live, s.store.durable, b, s.post.claims[plan.carried[0].did]);
      }
    }
  }

  /** After the executor of a claim's plan took its waiter over, the rest are where they were. */
  lemma HandedOver(p: Post, p': Post, res: map<Token, Reservation>, live: map<Id, Live>, plan: Plan)
    requires WaitInv(p, res, live) && OthersStay(p, p', plan.claim) && 0 !in p.waiters
    requires plan.waiter == 0 && plan.claim in p.parcels && plan.did in p.claims && p.claims[plan.did] == plan.claim ==> p.parcels[plan.claim].waiter == 0
    requires plan.claim in p.parcels ==> p.parcels[plan.claim].did == plan.did
    requires plan.waiter != 0 ==> plan.claim in p.parcels && p.parcels[plan.claim].planWaiter == plan.waiter
    requires p'.waiters == if plan.waiter in p.waiters && p.waiters[plan.waiter].Claimed? then p.waiters[plan.waiter := Owed] else p.waiters
    ensures WaitInv(p', res, live) && Onward(p.waiters, p'.waiters)
  {
    forall w | w in p'.waiters && p'.waiters[w].Claimed? ensures p'.waiters[w].parcel != plan.claim {
      assert p.waiters[w] == p'.waiters[w];
    }
  }

  lemma HandOverPosts(s: State, w: Token, p: Post)
    requires s.post.waiters == p.waiters && s.post.claims == p.claims && s.post.parcels == p.parcels
    ensures var q := HandOver(s, w).post;
            && q.claims == p.claims && q.parcels == p.parcels
            && q.waiters == if w in p.waiters && p.waiters[w].Claimed? then p.waiters[w := Owed] else p.waiters
  {
  }

  lemma OthersAlike(p: Post, q: Post, r: Post, t: Token)
    requires OthersStay(p, q, t) && r.claims == q.claims && r.parcels == q.parcels
    ensures OthersStay(p, r, t)
  {
  }

  /** A refusal or an admission that leaves other claims alone, then the hand-over. */
  lemma BeginMoves(s: State, mid: State, plan: Plan)
    requires WaitInv(s.post, s.runs.reservations, s.runs.live) && 0 !in s.post.waiters && Genuine(s, plan)
    requires OthersStay(s.post, mid.post, plan.claim) && mid.post.waiters == s.post.waiters
    ensures var q := HandOver(mid, plan.waiter).post; WaitInv(q, s.runs.reservations, s.runs.live) && Onward(s.post.waiters, q.waiters)
  {
    hide WaitInv, OthersStay, Onward, HandOver;
    var q := HandOver(mid, plan.waiter).post;
    HandOverPosts(mid, plan.waiter, mid.post);
    OthersAlike(s.post, mid.post, q, plan.claim);
    HandedOver(s.post, q, s.runs.reservations, s.runs.live, plan);
  }

  lemma FlagLeavesOthers(p: Post, t: Token)
    requires t in p.parcels
    ensures OthersStay(p, p.(parcels := p.parcels[t := p.parcels[t].(waiter := 0, refused := true)]), t)
  {
  }

  lemma DropLeavesOthers(p: Post, did: DeliveryId, t: Token)
    requires did in p.claims && p.claims[did] == t
    ensures OthersStay(p, p.(claims := p.claims - {did}), t)
  {
  }

  lemma StoppedLeavesOthers(s: State, plan: Plan)
    requires CarryInv(s.post, s.runs.live, s.store.durable) && Genuine(s, plan) && ClaimIs(s, plan.did, plan.claim)
    ensures OthersStay(s.post, RefuseCarrier(s.(post := s.post.(claims := s.post.claims - {plan.did})), plan).post, plan.claim)
  {
    hide CarryInv, OthersStay, RefuseCarrier, Genuine, Grown, WaitersApart;
    var cut := s.(post := s.post.(claims := s.post.claims - {plan.did}));
    DropLeavesOthers(s.post, plan.did, plan.claim);
    GrownReflexive(s.store.durable, s.runs.live);
    CarryAlong(s.post, cut.post, s.runs.live, s.runs.live, s.store.durable, s.store.durable);
    GenuineStill(s, plan);
    RefuseLeavesOthers(cut, plan);
    OthersStayVia(s.post, cut.post, RefuseCarrier(cut, plan).post, plan.claim);
  }

  lemma CurrentClaim(s: State, plan: Plan)
    requires PlanCurrent(s, plan)
    ensures plan.claim in s.post.parcels && ClaimIs(s, plan.did, plan.claim)
  {
  }

  lemma DecideLeavesOthers(s: State, plan: Plan)
    requires CarryInv(s.post, s.runs.live, s.store.durable) && Genuine(s, plan)
    ensures OthersStay(s.post, Decide(s, plan).post, plan.claim)
  {
    hide CarryInv, Genuine, PlanCurrent, ClaimIs, DeliveryStopped, AttentionReserved, RefuseCarrier, Admit, OthersStay;
    if HasReceipt(s, plan.did) || !PlanCurrent(s, plan) {
      RefuseLeavesOthers(s, plan);
    } else {
      CurrentClaim(s, plan);
      if DeliveryStopped(s, plan.delegate, plan.owner) {
        StoppedLeavesOthers(s, plan);
      } else {
        FlagLeavesOthers(s.post, plan.claim);
        AdmitLeavesOthers(s, plan);
      }
    }
  }

  lemma BeginWaiters(s: State, plan: Plan)
    requires WaitInv(s.post, s.runs.reservations, s.runs.live) && CarryInv(s.post, s.runs.live, s.store.durable) && 0 !in s.post.waiters
    ensures var n := BeginDelivery(s, plan); WaitInv(n.post, s.runs.reservations, s.runs.live) && Onward(s.post.waiters, n.post.waiters)
  {
    hide WaitInv, CarryInv, Genuine, Retries, Decide, HandOver, OthersStay, Onward, SameWaiters;
    SameWaitersReflexive(s.runs.live);
    if Genuine(s, plan) && !Retries(s, plan) {
      DecideLeavesOthers(s, plan);
      BeginMoves(s, Decide(s, plan), plan);
    } else {
      SteadyWaiters(s.post, BeginDelivery(s, plan).post, s.runs.reservations, s.runs.live, s.runs.live);
    }
  }

  lemma SameWaitersReflexive(live: map<Id, Live>)
    ensures SameWaiters(live, live)
  {
  }

  /** Claims may come and go where nobody waits. */
  lemma WaitingClaims(p: Post, p': Post, res: map<Token, Reservation>, live: map<Id, Live>)
    requires WaitInv(p, res, live) && p'.waiters == p.waiters && p'.parcels == p.parcels && 0 !in p.waiters
    requires forall key | Waiting(p, key) :: key in p'.claims && p'.claims[key] == p.claims[key]
    ensures WaitInv(p', res, live) && Onward(p.waiters, p'.waiters)
  {
    hide ReservedOk, RegisteredOk, HeldWaitless;
    forall w | w in p.waiters && p.waiters[w].Claimed? ensures Waiting(p, p.parcels[p.waiters[w].parcel].did) { }
  }

  lemma CompleteWaiters(s: State, t: Token, committed: bool, wake: nat, storeOk: bool)
    requires WaitInv(s.post, s.runs.reservations, s.runs.live) && CarryInv(s.post, s.runs.live, s.store.durable) && 0 !in s.post.waiters
    ensures var n := CompleteDelivery(s, t, committed, wake, storeOk); WaitInv(n.post, n.runs.reservations, n.runs.live) && Onward(s.post.waiters, n.post.waiters)
  {
    hide WaitInv, KeysOk, MintsOk, SiblingsOk, Onward, RestoreHeld, Append, Note, UntrackReceipt;
    var n := CompleteDelivery(s, t, committed, wake, storeOk);
    if t in s.post.receipts && s.post.receipts[t].held != 0 {
      forall key | Waiting(s.post, key) ensures key in RestoreHeld(s, s.post.receipts[t].held) && RestoreHeld(s, s.post.receipts[t].held)[key] == s.post.claims[key] {
        RestoreSpares(s, s.post.receipts[t].held, key);
      }
    }
    WaitingClaims(s.post, n.post, s.runs.reservations, s.runs.live);
  }

  lemma HoldWaiters(s: State, plan: Plan)
    requires WaitInv(s.post, s.runs.reservations, s.runs.live)
    ensures var n := HoldClaim(s, plan); WaitInv(n.post, n.runs.reservations, n.runs.live) && Onward(s.post.waiters, n.post.waiters)
  {
    hide ReservedOk, RegisteredOk;
  }

  lemma DropWaiters(s: State, plan: Plan)
    requires WaitInv(s.post, s.runs.reservations, s.runs.live)
    ensures var n := DropClaim(s, plan); WaitInv(n.post, n.runs.reservations, n.runs.live) && Onward(s.post.waiters, n.post.waiters)
  {
  }

  lemma WithdrawWaiters(s: State, w: Token)
    requires WaitInv(s.post, s.runs.reservations, s.runs.live)
    ensures var n := WithdrawWaiter(s, w); WaitInv(n.post, n.runs.reservations, n.runs.live) && Onward(s.post.waiters, n.post.waiters)
  {
    hide WaitInv, Onward, Unregister;
    var n := WithdrawWaiter(s, w);
    if n != s {
      WithdrawnWaiter(s.post, s.runs.reservations, s.runs.live, s.post.waiters[w].id, s.post.waiters[w].generation);
    } else {
      NobodyMoves(s);
    }
  }

  lemma NobodyMoves(s: State)
    requires WaitInv(s.post, s.runs.reservations, s.runs.live)
    ensures Onward(s.post.waiters, s.post.waiters)
  {
    hide WaitInv;
  }

  lemma DropStoppedWaiters(s: State, l: Lease)
    requires WaitInv(s.post, s.runs.reservations, s.runs.live)
    ensures var n := DropStoppedWaiter(s, l); WaitInv(n.post, n.runs.reservations, n.runs.live) && Onward(s.post.waiters, n.post.waiters)
  {
    hide WaitInv, Onward, Unregister;
    NobodyMoves(s);
    if l.id in s.runs.live && l.generation in s.runs.live[l.id].waiters {
      WithdrawnWaiter(s.post, s.runs.reservations, s.runs.live, l.id, l.generation);
    }
  }

  lemma AnswerWaiters(s: State, w: Token)
    requires WaitInv(s.post, s.runs.reservations, s.runs.live)
    ensures var n := AnswerWaiter(s, w); WaitInv(n.post, n.runs.reservations, n.runs.live) && Onward(s.post.waiters, n.post.waiters)
  {
    hide WaitersAt;
  }

  lemma DeliverWaiters(s: State, x: DeliverStep)
    requires WaitInv(s.post, s.runs.reservations, s.runs.live) && CarryInv(s.post, s.runs.live, s.store.durable)
    requires Minted(s.post.waiters.Keys, s.nextToken) && Minted(s.post.parcels.Keys, s.nextToken)
    ensures var n := NextDeliver(s, x); WaitInv(n.post, n.runs.reservations, n.runs.live) && Onward(s.post.waiters, n.post.waiters)
  {
    assert 0 !in s.post.waiters;
    hide WaitInv, CarryInv, Onward, PostUpdate, PlanDelivery, BeginDelivery, CompleteDelivery, LeaveForRetry, HoldClaim, DropClaim,
         WithdrawWaiter, DropStoppedWaiter, AnswerWaiter, Minted, SameWaiters;
    SameWaitersReflexive(s.runs.live);
    match x
    case DoPlanDelivery(id, did) => PlanWaiters(s, id, did);
    case DoBeginDelivery(p) => BeginWaiters(s, p);
    case DoCompleteDelivery(t, c, w, ok) => CompleteWaiters(s, t, c, w, ok);
    case DoHoldClaim(p) => HoldWaiters(s, p);
    case DoDropClaim(p) => DropWaiters(s, p);
    case DoWithdrawWaiter(w) => WithdrawWaiters(s, w);
    case DoDropStoppedWaiter(l) => DropStoppedWaiters(s, l);
    case DoAnswerWaiter(w) => AnswerWaiters(s, w);
    case _ => SteadyWaiters(s.post, NextDeliver(s, x).post, s.runs.reservations, s.runs.live, NextDeliver(s, x).runs.live);
  }

  // ---- Stops ----

  lemma OwedWaiters(p: Post, p': Post, res: map<Token, Reservation>, live: map<Id, Live>, members: set<Id>)
    requires WaitInv(p, res, live) && p'.parcels == p.parcels && p'.claims == p.claims - ClaimsIn(p.claims, p.parcels, members)
    requires p'.waiters == OweAll(p.waiters, WaitersIn(p.claims, p.parcels, members))
    ensures WaitInv(p', res, live) && Onward(p.waiters, p'.waiters)
  {
    hide ClaimsIn, WaitersIn, RegisteredOk, ReservedOk, HeldWaitless;
    OwedRegistered(p.waiters, WaitersIn(p.claims, p.parcels, members), res, live);
    forall w | w in p'.waiters && p'.waiters[w].Claimed? ensures p.parcels[p.waiters[w].parcel].did !in ClaimsIn(p.claims, p.parcels, members) {
      assert p.waiters[w] == p'.waiters[w];
      if p.parcels[p.waiters[w].parcel].did in ClaimsIn(p.claims, p.parcels, members) {
        ItsWaiterIsOwed(p, p.waiters[w].parcel, members);
      }
    }
  }

  lemma ItsWaiterIsOwed(p: Post, t: Token, members: set<Id>)
    requires t in p.parcels && p.parcels[t].did in ClaimsIn(p.claims, p.parcels, members) && p.claims[p.parcels[t].did] == t
    ensures p.parcels[t].waiter in WaitersIn(p.claims, p.parcels, members)
  {
  }

  lemma OwedRegistered(ws: map<Token, WaiterState>, owed: set<Token>, res: map<Token, Reservation>, live: map<Id, Live>)
    requires ReservedOk(ws, res) && RegisteredOk(ws, live)
    ensures ReservedOk(OweAll(ws, owed), res) && RegisteredOk(OweAll(ws, owed), live)
  {
  }

  lemma StopWaiters(s: State, x: StopStep)
    requires WaitInv(s.post, s.runs.reservations, s.runs.live)
    ensures var n := NextStop(s, x);
            WaitInv(n.post, n.runs.reservations, n.runs.live) && (!x.DoRestart? ==> Onward(s.post.waiters, n.post.waiters))
  {
    hide WaitInv, Onward, RecoverStopped, CompleteStop, LoseRuntime, ForgetLost, BeginClosing, CloseResumability, CloseUnrestorable, Restart, StopSubtree,
         OpenAttention, ForgetAttention, SameWaiters;
    SameWaitersReflexive(s.runs.live);
    if x.DoStopSubtree? { StopSubtreeWaiters(s, x.actor, x.target, x.allowClosing, x.storeOk); }
    else if x.DoRestart? { RestartWaiters(s, x.wakes); }
    else { SteadyWaiters(s.post, NextStop(s, x).post, s.runs.reservations, s.runs.live, NextStop(s, x).runs.live); }
  }

  lemma RestartWaiters(s: State, pending: map<Id, set<nat>>)
    ensures var n := Restart(s, pending); WaitInv(n.post, n.runs.reservations, n.runs.live)
  {
  }

  lemma StopSubtreeWaiters(s: State, actor: Option<Lease>, target: Id, allowClosing: bool, storeOk: bool)
    requires WaitInv(s.post, s.runs.reservations, s.runs.live)
    ensures var n := StopSubtree(s, actor, target, allowClosing, storeOk);
            WaitInv(n.post, n.runs.reservations, n.runs.live) && Onward(s.post.waiters, n.post.waiters)
  {
    hide WaitInv, Onward, Append, Subtree, Snapshot, OweAll, ClaimsIn, WaitersIn, AttentionBlocks, Authorized, SameWaiters;
    var n := StopSubtree(s, actor, target, allowClosing, storeOk);
    if n == s {
      SameWaitersReflexive(s.runs.live);
      SteadyWaiters(s.post, n.post, s.runs.reservations, s.runs.live, n.runs.live);
    } else {
      OwedWaiters(s.post, n.post, s.runs.reservations, s.runs.live, Subtree(ShapeOf(s.store.durable), target));
    }
  }

  // ---- Every step ----

  /** The waiters are in place, and short of a restart each stayed or moved on. */
  ghost predicate WaitersMoved(s: State, n: State, restart: bool) {
    WaitInv(n.post, n.runs.reservations, n.runs.live) && (!restart ==> Onward(s.post.waiters, n.post.waiters))
  }

  lemma StepMovesWaiters(s: State, step: Step)
    requires WaitInv(s.post, s.runs.reservations, s.runs.live) && CarryInv(s.post, s.runs.live, s.store.durable) && TokInv(s)
    ensures WaitersMoved(s, Next(s, step), Restarts(step))
  {
    hide WaitInv, CarryInv, Onward, Minted, NextStart, NextFinish, NextClaim, NextDeliver, NextStop, NextFence, SameWaiters;
    match step
    case Starts(x) => StartWaiters(s, x);
    case Finishes(x) => FinishWaiters(s, x);
    case ClaimsWork(x) => ClaimWaiters(s, x);
    case Delivers(x) => DeliverWaiters(s, x);
    case Stops(x) => StopWaiters(s, x);
    case FencesOff(x) => FenceWaiters(s, x);
  }

  lemma FinishWaiters(s: State, x: FinishStep)
    requires WaitInv(s.post, s.runs.reservations, s.runs.live)
    ensures var n := NextFinish(s, x); WaitInv(n.post, n.runs.reservations, n.runs.live) && Onward(s.post.waiters, n.post.waiters)
  {
    hide WaitInv, Onward, FinishGeneration, BeginFinalization, CompleteSettlement, FinishNoAction, PrepareNoAction, RequireRecovery, ReportQuiesced,
         AdmitReportWork, RecordNoAction, RecordTerminalSeen, SameWaiters;
    SameWaitersReflexive(s.runs.live);
    SteadyWaiters(s.post, NextFinish(s, x).post, s.runs.reservations, s.runs.live, NextFinish(s, x).runs.live);
  }

  lemma ClaimWaiters(s: State, x: ClaimStep)
    requires WaitInv(s.post, s.runs.reservations, s.runs.live)
    ensures var n := NextClaim(s, x); WaitInv(n.post, n.runs.reservations, n.runs.live) && Onward(s.post.waiters, n.post.waiters)
  {
    hide WaitInv, Onward, BeginSteer, CompleteSteer, AbortSteer, BeginModel, CompleteModel, AbortModel, BeginWork, CommitWork, AbortWork, FinishWork,
         BeginQuiet, CompleteQuiet, BeginEnqueue, CompleteEnqueue, AbortEnqueue, AcquireWatch, CompleteWatch, SameWaiters;
    SameWaitersReflexive(s.runs.live);
    SteadyWaiters(s.post, NextClaim(s, x).post, s.runs.reservations, s.runs.live, NextClaim(s, x).runs.live);
  }

  lemma FenceWaiters(s: State, x: FenceStep)
    requires WaitInv(s.post, s.runs.reservations, s.runs.live)
    ensures var n := NextFence(s, x); WaitInv(n.post, n.runs.reservations, n.runs.live) && Onward(s.post.waiters, n.post.waiters)
  {
    hide WaitInv, Onward, BeginHandoff, EndHandoff, BeginRestore, EndRestore, HoldRestore, ReleaseHold, ClaimReclamation, ClaimIdleRelease,
         CompleteReclamation, AbortReclamation, SameWaiters;
    SameWaitersReflexive(s.runs.live);
    SteadyWaiters(s.post, NextFence(s, x).post, s.runs.reservations, s.runs.live, NextFence(s, x).runs.live);
  }
}
