/** How parcels are minted, held and refused: what is true of every carrier, even one that took over from another. */
module Carriers {
  import opened Types
  import opened JournalLaws
  import opened State
  import opened Delivering
  import opened Invariants
  import opened Exclusive
  import opened Tree
  import opened Journal
  import opened Finishing
  import opened Starting
  import opened Claims
  import opened Stopping
  import opened Fences
  import opened Machine
  import opened Effects
  import opened StartKept
  import opened Writes

  // ---- The invariant ----

  /** A carrier's head came from an older, held parcel: one that delivers it, or carries it too. */
  predicate TakenFrom(parcels: map<Token, Parcel>, t: Token, c: Parcel)
    requires c.carried != []
  {
    var h := c.heldClaim;
    && h in parcels && h < t && parcels[h].held
    && (parcels[h].did == c.carried[0].did || (parcels[h].carried != [] && parcels[h].carried[0].did == c.carried[0].did))
  }

  /** A planned report's waiter was registered no longer, and only a transient refusal takes a waiter off a parcel. */
  predicate MintOk(parcels: map<Token, Parcel>, t: Token, c: Parcel, live: map<Id, Live>, d: Durable) {
    && c.did.id == c.delegate && c.delegate in d && c.owner == d[c.delegate].parent
    && (c.did.Report? ==> c.did.generation <= d[c.delegate].generation && c.did.generation !in WaitersAt(live, c.delegate))
    && (c.waiter == c.planWaiter || (c.waiter == 0 && c.refused)) && (c.held ==> c.waiter == 0)
    && (c.carried != [] ==> c.planWaiter != 0 && c.did != c.carried[0].did && TakenFrom(parcels, t, c))
  }

  ghost predicate MintsOk(parcels: map<Token, Parcel>, live: map<Id, Live>, d: Durable) {
    forall t | t in parcels :: MintOk(parcels, t, parcels[t], live, d)
  }

  /** Only a delivery's first parcel ever has a waiter; once there is another, the first holds no claim with it. */
  ghost predicate SiblingsOk(parcels: map<Token, Parcel>, claims: map<DeliveryId, Token>) {
    forall t, u | t in parcels && u in parcels && t < u && parcels[t].did == parcels[u].did ::
      parcels[u].planWaiter == 0 && (parcels[t].waiter != 0 && parcels[t].did in claims ==> claims[parcels[t].did] != t)
  }

  ghost predicate HeldReceipts(receipts: map<Token, Receipt>, parcels: map<Token, Parcel>) {
    forall r | r in receipts && receipts[r].held != 0 :: receipts[r].held in parcels && parcels[receipts[r].held].held
  }

  ghost predicate CarryInv(p: Post, live: map<Id, Live>, d: Durable) {
    && KeysOk(p.claims, p.parcels) && MintsOk(p.parcels, live, d) && SiblingsOk(p.parcels, p.claims) && HeldReceipts(p.receipts, p.parcels)
  }

  /** A held carrier is one whose owner was starting on an attention when it was first delivered. */
  lemma HeldCarrierWasRefused(p: Post, live: map<Id, Live>, d: Durable, t: Token)
    requires CarryInv(p, live, d) && t in p.parcels && p.parcels[t].carried != [] && p.parcels[t].held
    ensures p.parcels[t].refused && p.parcels[t].planWaiter != 0 && p.parcels[t].waiter == 0
  {
    assert MintOk(p.parcels, t, p.parcels[t], live, d);
  }

  /** No carrier takes over from another unless that one was held after a refusal. */
  lemma OvertakenWasHeld(p: Post, live: map<Id, Live>, d: Durable)
    requires CarryInv(p, live, d) && Overtaken(p.parcels)
    ensures exists t :: t in p.parcels && p.parcels[t].carried != [] && p.parcels[t].held && p.parcels[t].refused
  {
    var t :| t in p.parcels && p.parcels[t].carried != [] && p.parcels[t].heldClaim in p.parcels && p.parcels[p.parcels[t].heldClaim].carried != [];
    assert MintOk(p.parcels, t, p.parcels[t], live, d);
    HeldCarrierWasRefused(p, live, d, p.parcels[t].heldClaim);
  }

  // ---- Whose claim a waiter depends on ----

  /** The parcel a carrier's head first came from. */
  lemma {:induction false} HeadWasHeld(parcels: map<Token, Parcel>, live: map<Id, Live>, d: Durable, t: Token)
    requires MintsOk(parcels, live, d) && t in parcels && parcels[t].carried != []
    ensures exists b :: b in parcels && b < t && parcels[b].held && parcels[b].did == parcels[t].carried[0].did
    decreases t
  {
    assert MintOk(parcels, t, parcels[t], live, d);
    var h := parcels[t].heldClaim;
    if parcels[h].did != parcels[t].carried[0].did {
      HeadWasHeld(parcels, live, d, h);
    }
  }

  /** A parcel that answers a waiter is not the claimant of a delivery another parcel held. */
  lemma HeldHasNoWaitingSibling(p: Post, live: map<Id, Live>, d: Durable, held: Token, v: Token)
    requires CarryInv(p, live, d) && held in p.parcels && p.parcels[held].held && v in p.parcels && p.parcels[v].did == p.parcels[held].did
    requires p.parcels[v].did in p.claims && p.claims[p.parcels[v].did] == v
    ensures p.parcels[v].waiter == 0
  {
    hide KeysOk, HeldReceipts;
    assert MintOk(p.parcels, v, p.parcels[v], live, d);
    assert MintOk(p.parcels, held, p.parcels[held], live, d);
  }

  // ---- Steps that mint nothing ----

  /** Nobody is lost, nobody changes parents, generations only grow. */
  ghost predicate Grown(d: Durable, d': Durable) {
    forall i | i in d :: i in d' && d'[i].parent == d[i].parent && d[i].generation <= d'[i].generation
  }

  /** A waiter registered meanwhile waits for a generation of its own. */
  ghost predicate WaitersApart(live: map<Id, Live>, live': map<Id, Live>, d: Durable) {
    forall i, g | g in WaitersAt(live', i) :: g in WaitersAt(live, i) || i !in d || g > d[i].generation
  }

  ghost predicate FewerClaims(claims: map<DeliveryId, Token>, claims': map<DeliveryId, Token>) {
    forall k | k in claims' :: k in claims && claims'[k] == claims[k]
  }

  ghost predicate FewerReceipts(receipts: map<Token, Receipt>, receipts': map<Token, Receipt>) {
    forall t | t in receipts' :: t in receipts && receipts'[t].held == receipts[t].held
  }

  lemma GrownMints(parcels: map<Token, Parcel>, live: map<Id, Live>, live': map<Id, Live>, d: Durable, d': Durable)
    requires MintsOk(parcels, live, d) && Grown(d, d') && WaitersApart(live, live', d)
    ensures MintsOk(parcels, live', d')
  {
    hide TakenFrom, WaitersAt;
    forall t | t in parcels ensures MintOk(parcels, t, parcels[t], live', d') {
      assert MintOk(parcels, t, parcels[t], live, d);
    }
  }

  lemma CarryAlong(p: Post, p': Post, live: map<Id, Live>, live': map<Id, Live>, d: Durable, d': Durable)
    requires CarryInv(p, live, d) && p'.parcels == p.parcels && FewerClaims(p.claims, p'.claims) && FewerReceipts(p.receipts, p'.receipts)
    requires Grown(d, d') && WaitersApart(live, live', d)
    ensures CarryInv(p', live', d')
  {
    GrownMints(p.parcels, live, live', d, d');
    hide MintsOk, WaitersApart, Grown, KeyOk;
  }

  lemma GrownReflexive(d: Durable, live: map<Id, Live>)
    ensures Grown(d, d) && WaitersApart(live, live, d)
  {
  }

  // ---- Planning ----

  ghost predicate NoZeroWaiter(live: map<Id, Live>) {
    forall i, g | g in WaitersAt(live, i) :: WaitersAt(live, i)[g] != 0
  }

  /** What planning mints, as far as its waiter is concerned: a report takes the waiter of its generation with it. */
  lemma PlannedWaiter(s: State, id: Id, did: DeliveryId)
    requires Plannable(s, id, did) && WellFormed(s.store.durable, |s.store.journal|) && NoZeroWaiter(s.runs.live)
    ensures var c, n := PlannedParcel(s, id, did), PlanDelivery(s, id, did);
            && c.delegate == id && c.did == did && did.id == id && id in s.store.durable && c.owner == s.store.durable[id].parent
            && c.waiter == c.planWaiter && !c.held && (c.carried != [] ==> c.planWaiter != 0)
            && (c.planWaiter != 0 ==> did.Report? && did.generation in WaitersAt(s.runs.live, id))
            && (did.Report? ==> did.generation <= s.store.durable[id].generation && did.generation !in WaitersAt(n.runs.live, id))
            && WaitersApart(s.runs.live, n.runs.live, s.store.durable)
  {
    var q := s.store.durable[id].queue;
    var at := IndexIn(q, did);
    assert AggregateOk(id, s.store.durable[id], |s.store.journal|);
    assert DidOk(id, s.store.durable[id], |s.store.journal|, q[at].did) && PendingOk(q[at]);
    assert q[at].generation in WaitersAt(s.runs.live, id) ==> WaitersAt(s.runs.live, id)[q[at].generation] != 0;
    hide WellFormed, DeliveryStopped, ReceiverOf, ColdDeliveryWork, HasReceipt;
  }

  /** What a plan writes, split from how it came by it. */
  ghost predicate Mints(p: Post, p': Post, t: Token, c: Parcel) {
    && t !in p.parcels && (forall u | u in p.parcels :: u < t)
    && p'.parcels == p.parcels[t := c] && p'.receipts == p.receipts
    && p'.claims == (if c.carried == [] then p.claims[c.did := t] else p.claims[c.did := t][c.carried[0].did := t])
  }

  lemma MintedOk(p: Post, p': Post, t: Token, c: Parcel, live: map<Id, Live>, d: Durable)
    requires Mints(p, p', t, c) && MintsOk(p.parcels, live, d) && MintOk(p'.parcels, t, c, live, d)
    ensures MintsOk(p'.parcels, live, d)
  {
    hide WaitersAt;
    forall u | u in p'.parcels ensures MintOk(p'.parcels, u, p'.parcels[u], live, d) {
      if u != t { assert MintOk(p.parcels, u, p.parcels[u], live, d); }
    }
  }

  lemma MintedSiblings(p: Post, p': Post, t: Token, c: Parcel)
    requires Mints(p, p', t, c) && SiblingsOk(p.parcels, p.claims) && KeysOk(p.claims, p.parcels) && HeldReceipts(p.receipts, p.parcels)
    requires c.planWaiter != 0 ==> forall u | u in p.parcels :: p.parcels[u].did != c.did
    ensures SiblingsOk(p'.parcels, p'.claims) && KeysOk(p'.claims, p'.parcels) && HeldReceipts(p'.receipts, p'.parcels)
  {
    forall k | k in p'.claims ensures KeyOk(p'.parcels, k, p'.claims[k]) {
      if p'.claims[k] != t { assert KeyOk(p.parcels, k, p.claims[k]); }
    }
  }

  /** A report that still has its waiter was never planned. */
  lemma FirstParcel(p: Post, live: map<Id, Live>, d: Durable, did: DeliveryId)
    requires MintsOk(p.parcels, live, d) && did.Report? && did.generation in WaitersAt(live, did.id)
    ensures forall u | u in p.parcels :: p.parcels[u].did != did
  {
    forall u | u in p.parcels ensures p.parcels[u].did != did { assert MintOk(p.parcels, u, p.parcels[u], live, d); }
  }

  lemma PlannedTaken(s: State, id: Id, did: DeliveryId)
    requires Plannable(s, id, did) && WellFormed(s.store.durable, |s.store.journal|) && Minted(s.post.parcels.Keys, s.nextToken)
    requires KeysOk(s.post.claims, s.post.parcels)
    ensures var c := PlannedParcel(s, id, did);
            c.carried != [] ==> c.did != c.carried[0].did && TakenFrom(s.post.parcels[s.nextToken + 1 := c], s.nextToken + 1, c)
    ensures Mints(s.post, PlanDelivery(s, id, did).post, s.nextToken + 1, PlannedParcel(s, id, did))
  {
    var q := s.store.durable[id].queue;
    var at := IndexIn(q, did);
    var c := PlannedParcel(s, id, did);
    assert q[at].did == did && |c.carried| == at;
    if at > 0 {
      assert c.carried[0] == q[0];
      assert KeyOk(s.post.parcels, q[0].did, c.heldClaim);
    }
    hide WellFormed, DeliveryStopped, ReceiverOf, ColdDeliveryWork, HasReceipt, IndexIn;
  }

  lemma PlanCarries(s: State, id: Id, did: DeliveryId)
    requires CarryInv(s.post, s.runs.live, s.store.durable) && WellFormed(s.store.durable, |s.store.journal|)
    requires NoZeroWaiter(s.runs.live) && Minted(s.post.parcels.Keys, s.nextToken)
    ensures var n := PlanDelivery(s, id, did); CarryInv(n.post, n.runs.live, n.store.durable)
  {
    hide WellFormed, Plannable, KeysOk, MintsOk, SiblingsOk, HeldReceipts, Mints, TakenFrom, WaitersAt, WaitersApart, Grown, NoZeroWaiter, Minted, IndexIn,
         PlannedParcel, PlanDelivery;
    var n := PlanDelivery(s, id, did);
    if Plannable(s, id, did) {
      var t, c := s.nextToken + 1, PlannedParcel(s, id, did);
      PlannedWaiter(s, id, did);
      PlannedTaken(s, id, did);
      GrownReflexive(s.store.durable, s.runs.live);
      GrownMints(s.post.parcels, s.runs.live, n.runs.live, s.store.durable, s.store.durable);
      MintsTo(s.post, n.post, t, c);
      MintedOk(s.post, n.post, t, c, n.runs.live, s.store.durable);
      if c.planWaiter != 0 { FirstParcel(s.post, s.runs.live, s.store.durable, did); }
      MintedSiblings(s.post, n.post, t, c);
    } else {
      NotPlanned(s, id, did);
    }
  }

  lemma MintsTo(p: Post, p': Post, t: Token, c: Parcel)
    requires Mints(p, p', t, c)
    ensures p'.parcels == p.parcels[t := c]
  {
  }

  lemma NotPlanned(s: State, id: Id, did: DeliveryId)
    requires !Plannable(s, id, did)
    ensures PlanDelivery(s, id, did) == s
  {
    hide Plannable;
  }

  // ---- Restoring, flagging, admitting ----

  /** Claims may go, and a held parcel may have its own back. */
  lemma RestoredSiblings(p: Post, claims': map<DeliveryId, Token>, held: Token, live: map<Id, Live>, d: Durable)
    requires CarryInv(p, live, d) && held in p.parcels && p.parcels[held].held
    requires forall k | k in claims' :: (k in p.claims && claims'[k] == p.claims[k]) || (k == p.parcels[held].did && claims'[k] == held)
    ensures SiblingsOk(p.parcels, claims') && KeysOk(claims', p.parcels)
  {
    hide HeldReceipts;
    assert MintOk(p.parcels, held, p.parcels[held], live, d);
    forall k | k in claims' ensures KeyOk(p.parcels, k, claims'[k]) {
      if k in p.claims && claims'[k] == p.claims[k] { assert KeyOk(p.parcels, k, p.claims[k]); }
    }
  }

  lemma RestoreHeldClaims(s: State, held: Token)
    requires held in s.post.parcels
    ensures forall k | k in RestoreHeld(s, held) ::
              (k in s.post.claims && RestoreHeld(s, held)[k] == s.post.claims[k]) || (k == s.post.parcels[held].did && RestoreHeld(s, held)[k] == held)
    ensures forall k | k in s.post.claims && k != s.post.parcels[held].did :: k in RestoreHeld(s, held) && RestoreHeld(s, held)[k] == s.post.claims[k]
  {
    hide DeliveryStopped;
  }

  lemma CarrierHeld(s: State, p: Plan)
    requires MintsOk(s.post.parcels, s.runs.live, s.store.durable) && Genuine(s, p) && p.carried != []
    ensures p.claim in s.post.parcels && p.heldClaim in s.post.parcels && s.post.parcels[p.heldClaim].held
  {
    assert MintOk(s.post.parcels, p.claim, s.post.parcels[p.claim], s.runs.live, s.store.durable);
  }

  lemma RefuseCarries(s: State, p: Plan)
    requires CarryInv(s.post, s.runs.live, s.store.durable) && Genuine(s, p)
    ensures CarryInv(RefuseCarrier(s, p).post, s.runs.live, s.store.durable)
  {
    hide KeysOk, MintsOk, SiblingsOk, HeldReceipts, Genuine, RestoreHeld;
    if p.carried != [] {
      CarrierHeld(s, p);
      RestoreHeldClaims(s, p.heldClaim);
      RestoredSiblings(s.post, RefuseCarrier(s, p).post.claims, p.heldClaim, s.runs.live, s.store.durable);
    }
  }

  /** A parcel may be held once it answers nobody, and loses its waiter to a refusal. */
  predicate Marked(c: Parcel, c': Parcel) {
    || (c' == c.(held := true) && c.waiter == 0)
    || c' == c.(waiter := 0, refused := true)
  }

  lemma MarkedMints(p: Post, t: Token, c: Parcel, live: map<Id, Live>, d: Durable)
    requires MintsOk(p.parcels, live, d) && t in p.parcels && Marked(p.parcels[t], c)
    ensures MintsOk(p.parcels[t := c], live, d)
  {
    hide WaitersAt;
    var parcels' := p.parcels[t := c];
    forall u | u in parcels' ensures MintOk(parcels', u, parcels'[u], live, d) { assert MintOk(p.parcels, u, p.parcels[u], live, d); }
  }

  lemma MarkedSiblings(p: Post, t: Token, c: Parcel)
    requires SiblingsOk(p.parcels, p.claims) && t in p.parcels && Marked(p.parcels[t], c)
    ensures SiblingsOk(p.parcels[t := c], p.claims)
  {
  }

  lemma MarkedCarries(p: Post, t: Token, c: Parcel, live: map<Id, Live>, d: Durable)
    requires CarryInv(p, live, d) && t in p.parcels && Marked(p.parcels[t], c)
    ensures CarryInv(p.(parcels := p.parcels[t := c]), live, d)
  {
    MarkedMints(p, t, c, live, d);
    MarkedSiblings(p, t, c);
    hide MintsOk, SiblingsOk;
    forall k | k in p.claims ensures KeyOk(p.parcels[t := c], k, p.claims[k]) { assert KeyOk(p.parcels, k, p.claims[k]); }
  }

  lemma AdmitCarries(s: State, p: Plan)
    requires CarryInv(s.post, s.runs.live, s.store.durable) && Genuine(s, p) && p.claim in s.post.parcels && Minted(s.post.receipts.Keys, s.nextToken)
    ensures CarryInv(Admit(s, p).post, s.runs.live, s.store.durable)
  {
    hide MintsOk, Genuine, Admit, Minted, KeyOk;
    var r' := Admit(s, p).post.receipts;
    forall u | u in r' && r'[u].held != 0 ensures r'[u].held in s.post.parcels && s.post.parcels[r'[u].held].held {
      AdmittedReceipts(s, p, u);
      if p.carried != [] { CarrierHeld(s, p); }
    }
    AdmittedClaims(s, p);
  }

  lemma AdmittedClaims(s: State, p: Plan)
    requires p.claim in s.post.parcels
    ensures FewerClaims(s.post.claims, Admit(s, p).post.claims) && Admit(s, p).post.parcels == s.post.parcels
  {
    hide AdmitCarried;
  }

  lemma DecideCarries(s: State, p: Plan)
    requires CarryInv(s.post, s.runs.live, s.store.durable) && Genuine(s, p) && Minted(s.post.receipts.Keys, s.nextToken)
    ensures CarryInv(Decide(s, p).post, s.runs.live, s.store.durable)
  {
    hide CarryInv, Genuine, Admit, Minted, RefuseCarrier, AttentionReserved, DeliveryStopped, HasReceipt, Grown, WaitersApart;
    var cut := s.(post := s.post.(claims := s.post.claims - {p.did}));
    RefuseCarries(s, p);
    if PlanCurrent(s, p) {
      GrownReflexive(s.store.durable, s.runs.live);
      CarryAlong(s.post, cut.post, s.runs.live, s.runs.live, s.store.durable, s.store.durable);
      GenuineStill(s, p);
      RefuseCarries(cut, p);
      MarkedCarries(s.post, p.claim, s.post.parcels[p.claim].(waiter := 0, refused := true), s.runs.live, s.store.durable);
      AdmitCarries(s, p);
    }
  }

  lemma GenuineStill(s: State, p: Plan)
    requires Genuine(s, p)
    ensures Genuine(s.(post := s.post.(claims := s.post.claims - {p.did})), p)
  {
  }

  lemma BeginCarries(s: State, p: Plan)
    requires CarryInv(s.post, s.runs.live, s.store.durable) && Minted(s.post.receipts.Keys, s.nextToken)
    ensures CarryInv(BeginDelivery(s, p).post, s.runs.live, s.store.durable)
  {
    hide CarryInv, Genuine, Decide, Minted, RetryMatches, Grown, WaitersApart;
    GrownReflexive(s.store.durable, s.runs.live);
    if Genuine(s, p) && !Retries(s, p) {
      DecideCarries(s, p);
      CarryAlong(Decide(s, p).post, BeginDelivery(s, p).post, s.runs.live, s.runs.live, s.store.durable, s.store.durable);
    } else {
      CarryAlong(s.post, BeginDelivery(s, p).post, s.runs.live, s.runs.live, s.store.durable, s.store.durable);
    }
  }

  // ---- Completing ----

  lemma CompleteCarries(s: State, t: Token, committed: bool, wake: nat, storeOk: bool, d': Durable)
    requires CarryInv(s.post, s.runs.live, s.store.durable) && Grown(s.store.durable, d')
    ensures CarryInv(CompleteDelivery(s, t, committed, wake, storeOk).post, s.runs.live, d')
  {
    hide MintsOk, KeysOk, SiblingsOk, RestoreHeld, Append, Note, UntrackReceipt, Grown, WaitersApart;
    var n := CompleteDelivery(s, t, committed, wake, storeOk);
    GrownReflexive(s.store.durable, s.runs.live);
    if t in s.post.receipts && !committed && s.post.receipts[t].held != 0 && s.post.receipts[t].did !in s.post.claims {
      var held := s.post.receipts[t].held;
      RestoreHeldClaims(s, held);
      RestoredSiblings(s.post, n.post.claims, held, s.runs.live, s.store.durable);
      GrownMints(s.post.parcels, s.runs.live, s.runs.live, s.store.durable, d');
    } else {
      CarryAlong(s.post, n.post, s.runs.live, s.runs.live, s.store.durable, d');
    }
  }

  // ---- Every delivery step ----

  lemma HoldCarries(s: State, p: Plan)
    requires CarryInv(s.post, s.runs.live, s.store.durable)
    ensures CarryInv(HoldClaim(s, p).post, s.runs.live, s.store.durable)
  {
    hide CarryInv;
    if HoldClaim(s, p) != s {
      MarkedCarries(s.post, p.claim, s.post.parcels[p.claim].(held := true), s.runs.live, s.store.durable);
    }
  }

  lemma SteadyCarries(s: State, x: DeliverStep)
    requires CarryInv(s.post, s.runs.live, s.store.durable)
    requires !x.DoPlanDelivery? && !x.DoBeginDelivery? && !x.DoCompleteDelivery? && !x.DoHoldClaim?
    requires Grown(s.store.durable, NextDeliver(s, x).store.durable)
    ensures var n := NextDeliver(s, x); CarryInv(n.post, n.runs.live, n.store.durable)
  {
    var n := NextDeliver(s, x);
    assert WaitersApart(s.runs.live, n.runs.live, s.store.durable) by { hide PostUpdate, LeaveForRetry, DropClaim, AnswerWaiter; }
    hide CarryInv, Grown, WaitersApart, WithdrawWaiter, DropStoppedWaiter, PostUpdate, Genuine;
    CarryAlong(s.post, n.post, s.runs.live, n.runs.live, s.store.durable, n.store.durable);
  }

  lemma DeliverCarries(s: State, x: DeliverStep)
    requires CarryInv(s.post, s.runs.live, s.store.durable) && WellFormed(s.store.durable, |s.store.journal|)
    requires NoZeroWaiter(s.runs.live) && Minted(s.post.receipts.Keys, s.nextToken) && Minted(s.post.parcels.Keys, s.nextToken)
    requires Grown(s.store.durable, NextDeliver(s, x).store.durable)
    ensures var n := NextDeliver(s, x); CarryInv(n.post, n.runs.live, n.store.durable)
  {
    hide CarryInv, WellFormed, NoZeroWaiter, Minted, Grown, PostUpdate, PlanDelivery, BeginDelivery, CompleteDelivery, LeaveForRetry, HoldClaim, DropClaim,
         WithdrawWaiter, DropStoppedWaiter, AnswerWaiter;
    match x
    case DoPlanDelivery(id, did) => PlanCarries(s, id, did);
    case DoBeginDelivery(p) => BeginCarries(s, p);
    case DoCompleteDelivery(t, c, w, ok) => CompleteCarries(s, t, c, w, ok, NextDeliver(s, x).store.durable);
    case DoHoldClaim(p) => HoldCarries(s, p);
    case _ => SteadyCarries(s, x);
  }

  /** What a parcel was minted with never changes. */
  ghost predicate ParcelsStay(parcels: map<Token, Parcel>, parcels': map<Token, Parcel>) {
    forall t | t in parcels :: t in parcels' && parcels'[t].did == parcels[t].did && parcels'[t].carried == parcels[t].carried
                               && parcels'[t].heldClaim == parcels[t].heldClaim
  }

  lemma PlanParcelsStay(s: State, id: Id, did: DeliveryId)
    requires Minted(s.post.parcels.Keys, s.nextToken)
    ensures ParcelsStay(s.post.parcels, PlanDelivery(s, id, did).post.parcels)
  {
    hide Plannable, PlannedParcel, Unregister, IndexIn;
  }

  lemma DecideParcelsStay(s: State, p: Plan)
    ensures ParcelsStay(s.post.parcels, Decide(s, p).post.parcels)
  {
    if PlanCurrent(s, p) { CurrentParcel(s, p); }
    hide PlanCurrent, RefuseCarrier, Admit, HasReceipt, DeliveryStopped, AttentionReserved;
  }

  lemma BeginParcelsStay(s: State, p: Plan)
    ensures ParcelsStay(s.post.parcels, BeginDelivery(s, p).post.parcels)
  {
    hide Genuine, Retries, Decide;
    DecideParcelsStay(s, p);
  }

  lemma DeliverParcelsStay(s: State, x: DeliverStep)
    requires Minted(s.post.parcels.Keys, s.nextToken)
    ensures ParcelsStay(s.post.parcels, NextDeliver(s, x).post.parcels)
  {
    hide Minted, PlanDelivery, BeginDelivery, Genuine, PostUpdate, CompleteDelivery, LeaveForRetry, DropClaim, WithdrawWaiter, DropStoppedWaiter, AnswerWaiter;
    match x
    case DoPlanDelivery(id, did) => PlanParcelsStay(s, id, did);
    case DoBeginDelivery(p) => BeginParcelsStay(s, p);
    case _ =>
  }

  lemma OvertakenStays(parcels: map<Token, Parcel>, parcels': map<Token, Parcel>)
    requires Overtaken(parcels) && ParcelsStay(parcels, parcels')
    ensures Overtaken(parcels')
  {
    var t :| t in parcels && parcels[t].carried != [] && parcels[t].heldClaim in parcels && parcels[parcels[t].heldClaim].carried != [];
    assert t in parcels' && parcels'[t].heldClaim in parcels';
  }

  // ---- Every step ----

  lemma SameAreApart(live: map<Id, Live>, live': map<Id, Live>, d: Durable)
    requires SameWaiters(live, live')
    ensures WaitersApart(live, live', d)
  {
    hide WaitersAt;
    forall i, g | g in WaitersAt(live', i) ensures g in WaitersAt(live, i) { assert WaitersAt(live, i) == WaitersAt(live', i); }
  }

  /** A step that registers and mints nothing. */
  lemma SteadyCarry(s: State, n: State)
    requires CarryInv(s.post, s.runs.live, s.store.durable) && Grown(s.store.durable, n.store.durable) && SameWaiters(s.runs.live, n.runs.live)
    requires n.post.parcels == s.post.parcels && n.post.claims == s.post.claims && n.post.receipts == s.post.receipts
    ensures CarryInv(n.post, n.runs.live, n.store.durable)
  {
    hide CarryInv, SameWaiters, WaitersApart, Grown;
    SameAreApart(s.runs.live, n.runs.live, s.store.durable);
    CarryAlong(s.post, n.post, s.runs.live, n.runs.live, s.store.durable, n.store.durable);
  }

  lemma SameReflexive(live: map<Id, Live>)
    ensures SameWaiters(live, live)
  {
  }

  lemma OpenedApart(s: State, n: State, t: Token)
    requires Committed(s, n, t)
    ensures WaitersApart(s.runs.live, n.runs.live, s.store.durable)
  {
    hide JournalInv, ShapeOf;
  }

  lemma StartCarries(s: State, x: StartStep)
    requires CarryInv(s.post, s.runs.live, s.store.durable) && JournalInv(s.store.journal, s.store.durable) && Grown(s.store.durable, NextStart(s, x).store.durable)
    ensures var n := NextStart(s, x); CarryInv(n.post, n.runs.live, n.store.durable)
  {
    hide CarryInv, JournalInv, Grown, WaitersApart, SameWaiters, Committed, Wrote, Calmer, QueuesGrow, ReserveCreate, ReserveStart, ReserveAttention,
         ReserveOwedAttention, RegisterWaiter, ReleaseReservation, AttachRuntime, AttachIdleRuntime, BeginStartInput, CompleteStartInput, FailCommitted;
    var n := NextStart(s, x);
    SameReflexive(s.runs.live);
    if x.DoCommitStart? {
      CommitCarries(s, x);
    } else {
      SteadyCarry(s, n);
    }
  }

  lemma CommitCarries(s: State, x: StartStep)
    requires x.DoCommitStart? && CarryInv(s.post, s.runs.live, s.store.durable) && JournalInv(s.store.journal, s.store.durable)
    requires Grown(s.store.durable, NextStart(s, x).store.durable)
    ensures var n := NextStart(s, x); CarryInv(n.post, n.runs.live, n.store.durable)
  {
    hide CarryInv, JournalInv, Grown, WaitersApart, SameWaiters, Committed, Wrote, Calmer, QueuesGrow, NextStart;
    var n := NextStart(s, x);
    StartTame(s, x);
    UnopenedLives(s, x);
    if n.store != s.store {
      OpenedApart(s, n, x.token);
      CarryAlong(s.post, n.post, s.runs.live, n.runs.live, s.store.durable, n.store.durable);
    } else {
      SameReflexive(s.runs.live);
      SteadyCarry(s, n);
    }
  }

  /** A commit the journal did not take opens nothing; no commit plans anything. */
  lemma UnopenedLives(s: State, x: StartStep)
    requires x.DoCommitStart?
    ensures var n := NextStart(s, x);
            && (n.store == s.store ==> n.runs.live == s.runs.live)
            && n.post.parcels == s.post.parcels && n.post.claims == s.post.claims && n.post.receipts == s.post.receipts
  {
    hide CommitRefused, StartedLive, AddChildEdge, WakesAfterStart, Moved, SameSteers, OnlyStarts, ApplyBatch;
    var t := x.token;
    if t in s.runs.reservations { assert StartEvents(s.runs.reservations[t]) != []; }
    hide StartEvents;
  }

  lemma StopCarries(s: State, x: StopStep)
    requires CarryInv(s.post, s.runs.live, s.store.durable) && Grown(s.store.durable, NextStop(s, x).store.durable)
    ensures var n := NextStop(s, x); CarryInv(n.post, n.runs.live, n.store.durable)
  {
    if x.DoRestart? {
      RestartCarries(s, x.wakes);
    } else {
      hide CarryInv, Grown, SameWaiters, WaitersApart, RecoverStopped, CompleteStop, LoseRuntime, ForgetLost, BeginClosing, CloseResumability, CloseUnrestorable,
           Restart, OpenAttention, ForgetAttention, Snapshot, Append, AttentionBlocks, Subtree, ClaimsIn, WaitersIn, OweAll, Authorized;
      SameReflexive(s.runs.live);
      var n := NextStop(s, x);
      if x.DoStopSubtree? {
        SameAreApart(s.runs.live, n.runs.live, s.store.durable);
        CarryAlong(s.post, n.post, s.runs.live, n.runs.live, s.store.durable, n.store.durable);
      } else {
        SteadyCarry(s, n);
      }
    }
  }

  lemma RestartCarries(s: State, pending: map<Id, set<nat>>)
    ensures var n := Restart(s, pending); CarryInv(n.post, n.runs.live, n.store.durable)
  {
    hide RestoredStop, OwedWakes;
  }

  lemma FinishCarries(s: State, x: FinishStep)
    requires CarryInv(s.post, s.runs.live, s.store.durable) && Grown(s.store.durable, NextFinish(s, x).store.durable)
    ensures var n := NextFinish(s, x); CarryInv(n.post, n.runs.live, n.store.durable)
  {
    hide CarryInv, Grown, SameWaiters, FinishGeneration, BeginFinalization, CompleteSettlement, FinishNoAction, PrepareNoAction, RequireRecovery,
         ReportQuiesced, AdmitReportWork, RecordNoAction, RecordTerminalSeen;
    SameReflexive(s.runs.live);
    SteadyCarry(s, NextFinish(s, x));
  }

  lemma ClaimCarries(s: State, x: ClaimStep)
    requires CarryInv(s.post, s.runs.live, s.store.durable) && Grown(s.store.durable, NextClaim(s, x).store.durable)
    ensures var n := NextClaim(s, x); CarryInv(n.post, n.runs.live, n.store.durable)
  {
    hide CarryInv, Grown, SameWaiters, BeginSteer, CompleteSteer, AbortSteer, BeginModel, CompleteModel, AbortModel, BeginWork, CommitWork, AbortWork,
         FinishWork, BeginQuiet, CompleteQuiet, BeginEnqueue, CompleteEnqueue, AbortEnqueue, AcquireWatch, CompleteWatch;
    SameReflexive(s.runs.live);
    SteadyCarry(s, NextClaim(s, x));
  }

  lemma FenceCarries(s: State, x: FenceStep)
    requires CarryInv(s.post, s.runs.live, s.store.durable) && Grown(s.store.durable, NextFence(s, x).store.durable)
    ensures var n := NextFence(s, x); CarryInv(n.post, n.runs.live, n.store.durable)
  {
    hide CarryInv, Grown, SameWaiters, BeginHandoff, EndHandoff, BeginRestore, EndRestore, HoldRestore, ReleaseHold, ClaimReclamation, ClaimIdleRelease,
         CompleteReclamation, AbortReclamation;
    SameReflexive(s.runs.live);
    SteadyCarry(s, NextFence(s, x));
  }

  lemma StepKeepsCarry(s: State, step: Step)
    requires CarryInv(s.post, s.runs.live, s.store.durable) && JournalInv(s.store.journal, s.store.durable) && NoZeroWaiter(s.runs.live)
    requires Minted(s.post.receipts.Keys, s.nextToken) && Minted(s.post.parcels.Keys, s.nextToken)
    requires Grown(s.store.durable, Next(s, step).store.durable)
    ensures var n := Next(s, step); CarryInv(n.post, n.runs.live, n.store.durable)
  {
    hide CarryInv, Fold, WellFormed, NoZeroWaiter, Minted, Grown, NextStart, NextFinish, NextClaim, NextDeliver, NextStop, NextFence;
    match step
    case Starts(x) => StartCarries(s, x);
    case Finishes(x) => FinishCarries(s, x);
    case ClaimsWork(x) => ClaimCarries(s, x);
    case Delivers(x) => DeliverCarries(s, x);
    case Stops(x) => StopCarries(s, x);
    case FencesOff(x) => FenceCarries(s, x);
  }
}
