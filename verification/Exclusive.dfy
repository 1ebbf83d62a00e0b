/** No delivery ever has two receipts, or a claim and a receipt, whatever is carried, retried, held or restored. */
module Exclusive {
  import opened Types
  import opened Tree
  import opened Journal
  import opened JournalLaws
  import opened State
  import opened Delivering
  import opened Effects
  import opened Invariants
  import opened Writes

  // ---- The invariant ----

  predicate Received(receipts: map<Token, Receipt>, did: DeliveryId) {
    exists t | t in receipts :: receipts[t].did == did
  }

  /** What a parcel is minted with: a carrier's head was held by a parcel of its own. */
  predicate ParcelOk(parcels: map<Token, Parcel>, p: Parcel) {
    && p.did.id == p.delegate
    && (p.carried != [] ==> p.did != p.carried[0].did && p.heldClaim in parcels && parcels[p.heldClaim].carried == [] && parcels[p.heldClaim].did == p.carried[0].did)
  }

  ghost predicate ParcelsOk(parcels: map<Token, Parcel>) {
    forall t | t in parcels :: ParcelOk(parcels, parcels[t])
  }

  /** Some carrier took its head over from another carrier. */
  predicate Overtaken(parcels: map<Token, Parcel>) {
    exists t | t in parcels :: parcels[t].carried != [] && parcels[t].heldClaim in parcels && parcels[parcels[t].heldClaim].carried != []
  }

  /** A claim is its parcel's own delivery, or the head its parcel carries. */
  predicate KeyOk(parcels: map<Token, Parcel>, key: DeliveryId, t: Token) {
    t in parcels && (key == parcels[t].did || (parcels[t].carried != [] && key == parcels[t].carried[0].did))
  }

  ghost predicate KeysOk(claims: map<DeliveryId, Token>, parcels: map<Token, Parcel>) {
    forall key | key in claims :: KeyOk(parcels, key, claims[key])
  }

  /** Deliveries go to the parent. */
  ghost predicate OwnersOk(parcels: map<Token, Parcel>, d: Durable) {
    forall t | t in parcels :: parcels[t].delegate in d && parcels[t].owner == d[parcels[t].delegate].parent
  }

  predicate Carrying(claims: map<DeliveryId, Token>, parcels: map<Token, Parcel>, t: Token) {
    t in parcels && parcels[t].carried != [] && parcels[t].did in claims && claims[parcels[t].did] == t
  }

  /** A carrier in flight owns its head, sits right behind what it carries, and nobody touched the rest of the batch. */
  ghost predicate CarrierOk(claims: map<DeliveryId, Token>, receipts: map<Token, Receipt>, d: Durable, t: Token, p: Parcel) {
    && p.carried != [] && p.delegate in d
    && p.carried[0].did in claims && claims[p.carried[0].did] == t
    && |d[p.delegate].queue| > |p.carried| && d[p.delegate].queue[..|p.carried|] == p.carried && d[p.delegate].queue[|p.carried|].did == p.did
    && forall k | 1 <= k < |p.carried| :: p.carried[k].did !in claims && !Received(receipts, p.carried[k].did)
  }

  ghost predicate CarriersOk(claims: map<DeliveryId, Token>, parcels: map<Token, Parcel>, receipts: map<Token, Receipt>, d: Durable) {
    forall t | Carrying(claims, parcels, t) :: CarrierOk(claims, receipts, d, t, parcels[t])
  }

  /** The property: one receipt at most, and never beside a claim. */
  ghost predicate OneHolder(claims: map<DeliveryId, Token>, receipts: map<Token, Receipt>) {
    && (forall t, u | t in receipts && u in receipts && t != u :: receipts[t].did != receipts[u].did)
    && (forall t | t in receipts :: receipts[t].did !in claims)
  }

  ghost predicate HeldOk(receipts: map<Token, Receipt>, parcels: map<Token, Parcel>) {
    forall t | t in receipts && receipts[t].held != 0 ::
      receipts[t].held in parcels && parcels[receipts[t].held].carried == [] && parcels[receipts[t].held].did == receipts[t].did
  }

  ghost predicate DelivInv(p: Post, d: Durable) {
    && ParcelsOk(p.parcels) && KeysOk(p.claims, p.parcels) && OwnersOk(p.parcels, d)
    && CarriersOk(p.claims, p.parcels, p.receipts, d) && OneHolder(p.claims, p.receipts) && HeldOk(p.receipts, p.parcels)
  }

  // ---- Growth ----

  lemma GrowthKeeps(p: Post, d: Durable, d': Durable)
    requires DelivInv(p, d) && QueuesGrow(d, d') && (forall i | i in d :: i in d' && d'[i].parent == d[i].parent)
    ensures DelivInv(p, d')
  {
    hide ParcelsOk, KeysOk, OneHolder, HeldOk;
    forall t | Carrying(p.claims, p.parcels, t) ensures CarrierOk(p.claims, p.receipts, d', t, p.parcels[t]) {
      var c := p.parcels[t];
      assert CarrierOk(p.claims, p.receipts, d, t, c);
      var q, q' := d[c.delegate].queue, d'[c.delegate].queue;
      assert q'[..|c.carried|] == q[..|c.carried|];
    }
  }

  /** The head of a delegate with a carrier in flight has no receipt. */
  lemma CarriedHeadIsFree(p: Post, d: Durable, t: Token)
    requires DelivInv(p, d) && Carrying(p.claims, p.parcels, t)
    ensures p.parcels[t].delegate in d && d[p.parcels[t].delegate].queue != []
    ensures !Received(p.receipts, d[p.parcels[t].delegate].queue[0].did)
  {
    hide ParcelsOk, KeysOk, OwnersOk, HeldOk;
    var c := p.parcels[t];
    assert CarrierOk(p.claims, p.receipts, d, t, c);
    assert d[c.delegate].queue[0] == c.carried[0];
  }

  /** Queues change only where no carrier is in flight. */
  lemma QueueChangeKeeps(p: Post, d: Durable, d': Durable)
    requires DelivInv(p, d) && (forall i | i in d :: i in d' && d'[i].parent == d[i].parent)
    requires forall t | Carrying(p.claims, p.parcels, t) :: p.parcels[t].delegate in d ==> d'[p.parcels[t].delegate].queue == d[p.parcels[t].delegate].queue
    ensures DelivInv(p, d')
  {
    hide ParcelsOk, KeysOk, OneHolder, HeldOk;
    forall t | Carrying(p.claims, p.parcels, t) ensures CarrierOk(p.claims, p.receipts, d', t, p.parcels[t]) {
      assert CarrierOk(p.claims, p.receipts, d, t, p.parcels[t]);
    }
  }

  // ---- Fewer claims, fewer receipts ----

  /** Claims may go, a carrier's head only with the carrier. */
  lemma FewerClaimsKeep(p: Post, gone: set<DeliveryId>, d: Durable)
    requires DelivInv(p, d)
    requires forall t | Carrying(p.claims, p.parcels, t) && p.parcels[t].carried[0].did in gone :: p.parcels[t].did in gone
    ensures DelivInv(p.(claims := p.claims - gone), d)
  {
    hide ParcelsOk, HeldOk;
    var claims' := p.claims - gone;
    forall t | Carrying(claims', p.parcels, t) ensures CarrierOk(claims', p.receipts, d, t, p.parcels[t]) {
      assert Carrying(p.claims, p.parcels, t);
      assert CarrierOk(p.claims, p.receipts, d, t, p.parcels[t]);
    }
  }

  lemma FewerReceiptsKeep(p: Post, t: Token, d: Durable)
    requires DelivInv(p, d)
    ensures DelivInv(p.(receipts := p.receipts - {t}), d)
  {
    hide ParcelsOk, KeysOk, OwnersOk;
    var receipts' := p.receipts - {t};
    forall u | Carrying(p.claims, p.parcels, u) ensures CarrierOk(p.claims, receipts', d, u, p.parcels[u]) {
      assert CarrierOk(p.claims, p.receipts, d, u, p.parcels[u]);
      forall did | Received(receipts', did) ensures Received(p.receipts, did) {
        var v :| v in receipts' && receipts'[v].did == did;
        assert v in p.receipts;
      }
    }
  }

  lemma MarkedReceiptsKeep(p: Post, t: Token, retryable: bool, d: Durable)
    requires DelivInv(p, d) && t in p.receipts
    ensures DelivInv(p.(receipts := p.receipts[t := p.receipts[t].(retryable := retryable)]), d)
  {
    hide ParcelsOk, KeysOk, OwnersOk;
    var receipts' := p.receipts[t := p.receipts[t].(retryable := retryable)];
    forall u | Carrying(p.claims, p.parcels, u) ensures CarrierOk(p.claims, receipts', d, u, p.parcels[u]) {
      assert CarrierOk(p.claims, p.receipts, d, u, p.parcels[u]);
      forall did | Received(receipts', did) ensures Received(p.receipts, did) {
        var v :| v in receipts' && receipts'[v].did == did;
        assert v in p.receipts && p.receipts[v].did == did;
      }
    }
  }

  // ---- Restoring a held head ----

  /** Writing a head back under the parcel that held it, when nothing has a receipt for it and no carrier is in flight over it. */
  lemma RestoredKeeps(p: Post, held: Token, d: Durable, n: nat)
    requires DelivInv(p, d) && WellFormed(d, n) && held in p.parcels
    requires var c := p.parcels[held];
             && c.did !in p.claims && !Received(p.receipts, c.did)
             && c.delegate in d && d[c.delegate].queue != [] && d[c.delegate].queue[0].did == c.did
    requires p.parcels[held].carried == []
    ensures DelivInv(p.(claims := p.claims[p.parcels[held].did := held]), d)
  {
    hide ParcelsOk, HeldOk, WellFounded;
    var c := p.parcels[held];
    var claims' := p.claims[c.did := held];
    forall t | Carrying(claims', p.parcels, t) ensures CarrierOk(claims', p.receipts, d, t, p.parcels[t]) {
      assert Carrying(p.claims, p.parcels, t);
      var x := p.parcels[t];
      assert CarrierOk(p.claims, p.receipts, d, t, x);
      BehindIsNoHead(d, n, x, c.delegate, c.did);
    }
  }

  /** What is carried behind a head is no delegate's head. */
  lemma BehindIsNoHead(d: Durable, n: nat, x: Parcel, i: Id, did: DeliveryId)
    requires WellFormed(d, n) && x.delegate in d && |d[x.delegate].queue| > |x.carried| && d[x.delegate].queue[..|x.carried|] == x.carried
    requires i in d && d[i].queue != [] && d[i].queue[0].did == did
    ensures forall k | 1 <= k < |x.carried| :: x.carried[k].did != did
  {
    assert AggregateOk(i, d[i], n) && AggregateOk(x.delegate, d[x.delegate], n);
    assert DidOk(i, d[i], n, d[i].queue[0].did);
    forall k | 1 <= k < |x.carried| ensures x.carried[k].did != did {
      assert d[x.delegate].queue[k] == x.carried[k];
      assert DidOk(x.delegate, d[x.delegate], n, d[x.delegate].queue[k].did);
    }
  }

  // ---- Planning ----

  lemma DidNamesDelegate(d: Durable, n: nat, i: Id, k: nat)
    requires WellFormed(d, n) && i in d && k < |d[i].queue|
    ensures d[i].queue[k].did.id == i && d[i].queue[k].owner == d[i].parent
    ensures forall j | 0 <= j < |d[i].queue| && j != k :: d[i].queue[j].did != d[i].queue[k].did
  {
    assert AggregateOk(i, d[i], n);
    assert DidOk(i, d[i], n, d[i].queue[k].did);
  }

  /** The parcel a plan mints, as far as exclusivity is concerned. */
  ghost predicate Fresh(p: Post, d: Durable, t: Token, c: Parcel) {
    && t !in p.parcels && c.delegate in d && !c.held
    && var q := d[c.delegate].queue;
    && |q| > |c.carried| && c.carried == q[..|c.carried|] && q[|c.carried|].did == c.did && c.owner == q[|c.carried|].owner
    && c.did !in p.claims && !Received(p.receipts, c.did)
    && (forall k | 1 <= k < |c.carried| :: q[k].did !in p.claims && !Received(p.receipts, q[k].did))
    && (c.carried != [] ==> q[0].did in p.claims && p.claims[q[0].did] == c.heldClaim && c.heldClaim in p.parcels && p.parcels[c.heldClaim].held)
  }

  /** A carrier's head was held by a parcel that carries nothing. */
  predicate HeadAlone(p: Post, c: Parcel) {
    c.carried != [] ==> c.heldClaim in p.parcels && p.parcels[c.heldClaim].carried == []
  }

  function WithPlan(p: Post, t: Token, c: Parcel): Post {
    p.(parcels := p.parcels[t := c],
       claims := if c.carried == [] then p.claims[c.did := t] else p.claims[c.did := t][c.carried[0].did := t])
  }

  /** The head of the batch was claimed by the parcel that held it. */
  lemma HeadWasAlone(p: Post, d: Durable, t: Token, c: Parcel)
    requires KeysOk(p.claims, p.parcels) && Fresh(p, d, t, c) && HeadAlone(p, c) && c.carried != []
    ensures c.heldClaim in p.parcels && p.parcels[c.heldClaim].carried == [] && p.parcels[c.heldClaim].did == c.carried[0].did
  {
    var q := d[c.delegate].queue;
    assert c.carried[0] == q[0];
    assert KeyOk(p.parcels, q[0].did, c.heldClaim);
  }

  lemma PlannedParcels(p: Post, d: Durable, n: nat, t: Token, c: Parcel)
    requires DelivInv(p, d) && WellFormed(d, n) && Fresh(p, d, t, c) && HeadAlone(p, c)
    ensures ParcelsOk(p.parcels[t := c]) && OwnersOk(p.parcels[t := c], d) && HeldOk(p.receipts, p.parcels[t := c])
  {
    hide CarriersOk, OneHolder, WellFormed, KeysOk;
    DidNamesDelegate(d, n, c.delegate, |c.carried|);
    if c.carried != [] {
      HeadWasAlone(p, d, t, c);
      DidNamesDelegate(d, n, c.delegate, 0);
      assert c.carried[0] == d[c.delegate].queue[0];
    }
    forall u | u in p.parcels ensures ParcelOk(p.parcels[t := c], p.parcels[u]) { assert ParcelOk(p.parcels, p.parcels[u]); }
  }

  lemma PlannedParcelOk(p: Post, d: Durable, n: nat, t: Token, c: Parcel)
    requires DelivInv(p, d) && WellFormed(d, n) && Fresh(p, d, t, c) && HeadAlone(p, c)
    ensures ParcelsOk(p.parcels[t := c]) && OwnersOk(p.parcels[t := c], d) && KeysOk(WithPlan(p, t, c).claims, p.parcels[t := c])
    ensures HeldOk(p.receipts, p.parcels[t := c])
  {
    hide CarriersOk, OneHolder, WellFormed, ParcelsOk, OwnersOk, HeldOk;
    PlannedParcels(p, d, n, t, c);
    forall key | key in p.claims ensures KeyOk(p.parcels[t := c], key, p.claims[key]) { assert KeyOk(p.parcels, key, p.claims[key]); }
  }

  lemma PlannedOneHolder(p: Post, d: Durable, t: Token, c: Parcel)
    requires OneHolder(p.claims, p.receipts) && Fresh(p, d, t, c)
    ensures OneHolder(WithPlan(p, t, c).claims, p.receipts)
  {
    assert c.carried != [] ==> c.carried[0] == d[c.delegate].queue[0];
  }

  /** A carrier already in flight never carries what is being planned. */
  lemma OtherCarrier(p: Post, d: Durable, n: nat, t: Token, c: Parcel, u: Token)
    requires DelivInv(p, d) && WellFormed(d, n) && Fresh(p, d, t, c) && HeadAlone(p, c) && Carrying(p.claims, p.parcels, u)
    ensures var x := p.parcels[u];
            && x.carried != [] && x.carried[0].did != c.did
            && (c.carried != [] ==> c.carried[0] == d[c.delegate].queue[0] && x.carried[0].did != c.carried[0].did)
            && forall k | 1 <= k < |x.carried| :: x.carried[k].did != c.did && (c.carried != [] ==> x.carried[k].did != c.carried[0].did)
  {
    hide KeysOk, OwnersOk, OneHolder, HeldOk, WellFormed;
    var x, q := p.parcels[u], d[c.delegate].queue;
    assert CarrierOk(p.claims, p.receipts, d, u, x);
    assert ParcelOk(p.parcels, x);
    DidNamesDelegate(d, n, c.delegate, |c.carried|);
    if c.carried != [] {
      assert c.carried[0] == q[0];
      assert x.carried[0].did == q[0].did ==> u == c.heldClaim;
      BehindIsNoHead(d, n, x, c.delegate, q[0].did);
    }
    forall k | 1 <= k < |x.carried| ensures x.carried[k].did != c.did {
      DidNamesDelegate(d, n, x.delegate, k);
      assert x.carried[k] == d[x.delegate].queue[k] && x.carried[0] == d[x.delegate].queue[0];
      assert x.carried[k].did == c.did ==> x.delegate == c.delegate && k == |c.carried|;
    }
  }

  lemma PlannedCarriers(p: Post, d: Durable, n: nat, t: Token, c: Parcel, u: Token)
    requires DelivInv(p, d) && WellFormed(d, n) && Fresh(p, d, t, c) && HeadAlone(p, c)
    requires Carrying(WithPlan(p, t, c).claims, WithPlan(p, t, c).parcels, u)
    ensures CarrierOk(WithPlan(p, t, c).claims, p.receipts, d, u, WithPlan(p, t, c).parcels[u])
  {
    hide KeysOk, OwnersOk, OneHolder, HeldOk, WellFormed, ParcelsOk;
    var claims' := WithPlan(p, t, c).claims;
    var q := d[c.delegate].queue;
    if u == t {
      forall k | 1 <= k < |c.carried| ensures c.carried[k].did !in claims' && !Received(p.receipts, c.carried[k].did) {
        DidNamesDelegate(d, n, c.delegate, k);
        assert c.carried[k] == q[k] && c.carried[0] == q[0];
      }
    } else {
      assert Carrying(p.claims, p.parcels, u);
      OtherCarrier(p, d, n, t, c, u);
      assert CarrierOk(p.claims, p.receipts, d, u, p.parcels[u]);
    }
  }

  lemma PlanKeeps(p: Post, d: Durable, n: nat, t: Token, c: Parcel)
    requires DelivInv(p, d) && WellFormed(d, n) && Fresh(p, d, t, c) && HeadAlone(p, c)
    ensures DelivInv(WithPlan(p, t, c), d)
  {
    PlannedParcelOk(p, d, n, t, c);
    PlannedOneHolder(p, d, t, c);
    forall u | Carrying(WithPlan(p, t, c).claims, WithPlan(p, t, c).parcels, u)
      ensures CarrierOk(WithPlan(p, t, c).claims, p.receipts, d, u, WithPlan(p, t, c).parcels[u])
    {
      PlannedCarriers(p, d, n, t, c, u);
    }
    hide ParcelsOk, KeysOk, OwnersOk, OneHolder, HeldOk, WellFormed, Fresh, CarrierOk;
  }

  // ---- Admission ----

  /** Which receipts a batch adds. */
  lemma {:induction false} CarriedReceipts(receipts: map<Token, Receipt>, p: Plan, cold: bool, inline: bool, next: Token, k: nat, u: Token)
    requires 1 <= k <= |p.carried| && Minted(receipts.Keys, next)
    ensures var r' := AdmitCarried(receipts, p, cold, inline, next, k);
            && (u in r' <==> u in receipts || next < u <= next + k)
            && (u in receipts ==> r'[u] == receipts[u])
            && (next < u <= next + k ==> r'[u].did == p.carried[u - next - 1].did && r'[u].held == (if u == next + 1 then p.heldClaim else 0))
  {
    if k > 1 { CarriedReceipts(receipts, p, cold, inline, next, k - 1, u); }
  }

  /** The delivery at each new token: the batch in order, then the plan's own. */
  function NewDid(p: Plan, k: nat): DeliveryId
    requires k <= |p.carried|
  {
    if k < |p.carried| then p.carried[k].did else p.did
  }

  lemma AdmittedReceipts(s: State, p: Plan, u: Token)
    requires p.claim in s.post.parcels && Minted(s.post.receipts.Keys, s.nextToken)
    ensures var r' := Admit(s, p).post.receipts;
            && (u in r' <==> u in s.post.receipts || s.nextToken < u <= s.nextToken + |p.carried| + 1)
            && (u in s.post.receipts ==> r'[u] == s.post.receipts[u])
            && (s.nextToken < u <= s.nextToken + |p.carried| + 1 ==>
                  r'[u].did == NewDid(p, u - s.nextToken - 1)
                  && r'[u].held == (if p.carried != [] && u == s.nextToken + 1 then p.heldClaim else 0))
  {
    hide AdmitCarried;
    var cold, inline := s.post.parcels[p.claim].cold, p.waiter != 0 || p.callerCommitted;
    if p.carried != [] { CarriedReceipts(s.post.receipts, p, cold, inline, s.nextToken, |p.carried|, u); }
  }

  /** A plan ready for admission: it holds its claim, sits in the queue behind its batch, and nothing has its receipt. */
  ghost predicate Admissible(p: Post, d: Durable, plan: Plan) {
    && plan.claim in p.parcels && p.parcels[plan.claim].did == plan.did
    && plan.did in p.claims && p.claims[plan.did] == plan.claim && !Received(p.receipts, plan.did)
    && plan.delegate in d && |d[plan.delegate].queue| > |plan.carried| && d[plan.delegate].queue[..|plan.carried|] == plan.carried
    && d[plan.delegate].queue[|plan.carried|].did == plan.did
    && (plan.carried != [] ==> p.parcels[plan.claim].carried == plan.carried && p.parcels[plan.claim].heldClaim == plan.heldClaim)
  }

  /** Each delivery of the batch is unreceipted, and no two are the same. */
  lemma BatchIsFree(p: Post, d: Durable, n: nat, plan: Plan, k: nat)
    requires DelivInv(p, d) && WellFormed(d, n) && Admissible(p, d, plan) && k <= |plan.carried|
    ensures !Received(p.receipts, NewDid(plan, k)) && NewDid(plan, k).id == plan.delegate
    ensures forall j | 0 <= j <= |plan.carried| && j != k :: NewDid(plan, j) != NewDid(plan, k)
    ensures plan.carried != [] ==> plan.carried[0].did in p.claims && p.claims[plan.carried[0].did] == plan.claim
    ensures 1 <= k < |plan.carried| ==> NewDid(plan, k) !in p.claims
  {
    hide KeysOk, OwnersOk, HeldOk, WellFormed, ParcelsOk;
    var q := d[plan.delegate].queue;
    DidNamesDelegate(d, n, plan.delegate, k);
    assert forall j | 0 <= j <= |plan.carried| :: NewDid(plan, j) == q[j].did;
    if plan.carried != [] {
      assert Carrying(p.claims, p.parcels, plan.claim);
      assert CarrierOk(p.claims, p.receipts, d, plan.claim, p.parcels[plan.claim]);
    }
  }

  lemma AdmittedOneHolder(s: State, plan: Plan, d: Durable, n: nat)
    requires DelivInv(s.post, d) && WellFormed(d, n) && Admissible(s.post, d, plan) && Minted(s.post.receipts.Keys, s.nextToken)
    ensures plan.claim in s.post.parcels && OneHolder(Admit(s, plan).post.claims, Admit(s, plan).post.receipts)
  {
    hide WellFormed, CarriersOk, OwnersOk, KeysOk, HeldOk, ParcelsOk, Admissible, AdmitCarried;
    AdmissibleClaim(s.post, d, plan);
    var r, r' := s.post.receipts, Admit(s, plan).post.receipts;
    var next, m := s.nextToken, |plan.carried|;
    forall u | u in r' ensures
      && (u in r ==> r'[u] == r[u])
      && (u !in r ==> next < u <= next + m + 1 && r'[u].did == NewDid(plan, u - next - 1) && !Received(r, r'[u].did)
                      && r'[u].did !in Admit(s, plan).post.claims
                      && forall j | 0 <= j <= m && j != u - next - 1 :: NewDid(plan, j) != r'[u].did)
    {
      AdmittedReceipts(s, plan, u);
      if u !in r { BatchIsFree(s.post, d, n, plan, u - next - 1); }
    }
  }

  lemma AdmissibleClaim(p: Post, d: Durable, plan: Plan)
    requires Admissible(p, d, plan)
    ensures plan.claim in p.parcels
  {
  }

  lemma AdmittedHeld(s: State, plan: Plan, d: Durable)
    requires DelivInv(s.post, d) && Admissible(s.post, d, plan) && Minted(s.post.receipts.Keys, s.nextToken)
    ensures HeldOk(Admit(s, plan).post.receipts, s.post.parcels)
  {
    hide CarriersOk, OwnersOk, KeysOk, OneHolder, AdmitCarried, Admit, Minted;
    var r' := Admit(s, plan).post.receipts;
    forall u | u in r' && r'[u].held != 0
      ensures r'[u].held in s.post.parcels && s.post.parcels[r'[u].held].carried == [] && s.post.parcels[r'[u].held].did == r'[u].did
    {
      AdmittedReceipts(s, plan, u);
      assert ParcelOk(s.post.parcels, s.post.parcels[plan.claim]);
    }
  }

  lemma AdmittedCarriers(s: State, plan: Plan, d: Durable, n: nat, t: Token)
    requires DelivInv(s.post, d) && WellFormed(d, n) && Admissible(s.post, d, plan) && Minted(s.post.receipts.Keys, s.nextToken)
    requires Carrying(Admit(s, plan).post.claims, s.post.parcels, t)
    ensures CarrierOk(Admit(s, plan).post.claims, Admit(s, plan).post.receipts, d, t, s.post.parcels[t])
  {
    hide WellFormed, OwnersOk, KeysOk, HeldOk, AdmitCarried, OneHolder;
    var x, r, r' := s.post.parcels[t], s.post.receipts, Admit(s, plan).post.receipts;
    assert Carrying(s.post.claims, s.post.parcels, t) && t != plan.claim;
    assert CarrierOk(s.post.claims, r, d, t, x);
    BatchIsFree(s.post, d, n, plan, 0);
    forall k | 1 <= k < |x.carried| ensures !Received(r', x.carried[k].did) {
      DidNamesDelegate(d, n, x.delegate, k);
      assert x.carried[k] == d[x.delegate].queue[k] && x.carried[0] == d[x.delegate].queue[0];
      forall u | u in r' ensures r'[u].did != x.carried[k].did {
        AdmittedReceipts(s, plan, u);
        if u !in r { NotInBatch(s.post, d, n, plan, t, k, (u - s.nextToken - 1) as nat); }
      }
    }
  }

  /** Nothing another carrier carries is in the admitted batch. */
  lemma NotInBatch(p: Post, d: Durable, n: nat, plan: Plan, t: Token, k: nat, j: nat)
    requires DelivInv(p, d) && WellFormed(d, n) && Admissible(p, d, plan) && Carrying(p.claims, p.parcels, t) && t != plan.claim
    requires 1 <= k < |p.parcels[t].carried| && j <= |plan.carried|
    ensures NewDid(plan, j) != p.parcels[t].carried[k].did
  {
    hide WellFormed, OwnersOk, KeysOk, HeldOk, OneHolder;
    var x := p.parcels[t];
    assert CarrierOk(p.claims, p.receipts, d, t, x);
    BatchIsFree(p, d, n, plan, j);
    BatchIsFree(p, d, n, plan, 0);
    DidNamesDelegate(d, n, x.delegate, k);
    assert x.carried[k] == d[x.delegate].queue[k] && x.carried[0] == d[x.delegate].queue[0];
    assert plan.carried != [] ==> plan.carried[0] == d[plan.delegate].queue[0];
  }

  lemma AdmitKeeps(s: State, plan: Plan, d: Durable, n: nat)
    requires DelivInv(s.post, d) && WellFormed(d, n) && Admissible(s.post, d, plan) && Minted(s.post.receipts.Keys, s.nextToken)
    ensures DelivInv(Admit(s, plan).post, d)
  {
    hide WellFormed, AdmitCarried, Admissible, OneHolder, HeldOk, ParcelsOk, OwnersOk, CarrierOk;
    AdmissibleClaim(s.post, d, plan);
    AdmittedOneHolder(s, plan, d, n);
    AdmittedHeld(s, plan, d);
    forall t | Carrying(Admit(s, plan).post.claims, s.post.parcels, t)
      ensures CarrierOk(Admit(s, plan).post.claims, Admit(s, plan).post.receipts, d, t, s.post.parcels[t])
    {
      AdmittedCarriers(s, plan, d, n, t);
    }
  }

  // ---- Steps ----

  lemma PlannedIsFresh(s: State, id: Id, did: DeliveryId)
    requires Plannable(s, id, did) && Minted(s.post.parcels.Keys, s.nextToken)
    ensures Fresh(s.post, s.store.durable, s.nextToken + 1, PlannedParcel(s, id, did))
  {
    hide DeliveryStopped, ReceiverOf, ColdDeliveryWork;
    var q := s.store.durable[id].queue;
    var at := IndexIn(q, did);
    var c := PlannedParcel(s, id, did);
    assert |c.carried| == at;
    forall x ensures HasReceipt(s, x) <==> Received(s.post.receipts, x) { }
  }

  lemma PlanDeliveryKeeps(s: State, id: Id, did: DeliveryId)
    requires DelivInv(s.post, s.store.durable) && WellFormed(s.store.durable, |s.store.journal|) && Minted(s.post.parcels.Keys, s.nextToken)
    requires !Overtaken(PlanDelivery(s, id, did).post.parcels)
    ensures DelivInv(PlanDelivery(s, id, did).post, s.store.durable)
  {
    hide DelivInv, WellFormed, Plannable, Fresh, Unregister, IndexIn, Minted, Overtaken, HeadAlone;
    if Plannable(s, id, did) {
      PlannedIsFresh(s, id, did);
      HeadIsAlone(s.post, s.store.durable, s.nextToken + 1, PlannedParcel(s, id, did));
      PlanKeeps(s.post, s.store.durable, |s.store.journal|, s.nextToken + 1, PlannedParcel(s, id, did));
      WaitersAside(WithPlan(s.post, s.nextToken + 1, PlannedParcel(s, id, did)), PlanDelivery(s, id, did).post, s.store.durable);
    }
  }

  /** A new carrier overtakes another exactly when the head it takes over is not held alone. */
  lemma HeadIsAlone(p: Post, d: Durable, t: Token, c: Parcel)
    requires Fresh(p, d, t, c)
    ensures !Overtaken(p.parcels[t := c]) ==> HeadAlone(p, c)
    ensures !Overtaken(p.parcels) && HeadAlone(p, c) && ParcelsOk(p.parcels) ==> !Overtaken(p.parcels[t := c])
  {
    var q := p.parcels[t := c];
    assert q[t] == c;
    if !Overtaken(p.parcels) && HeadAlone(p, c) && ParcelsOk(p.parcels) {
      forall u | u in q && q[u].carried != [] && q[u].heldClaim in q ensures q[q[u].heldClaim].carried == [] {
        if u != t { assert ParcelOk(p.parcels, p.parcels[u]); }
      }
    }
  }

  lemma WaitersAside(p: Post, p': Post, d: Durable)
    requires DelivInv(p, d) && p'.claims == p.claims && p'.receipts == p.receipts && p'.parcels == p.parcels
    ensures DelivInv(p', d)
  {
    hide ParcelsOk, KeysOk, OwnersOk, CarriersOk, OneHolder, HeldOk;
  }

  /** The carrier a genuine refused plan names is given up whole: its head goes back to the parcel that held it. */
  lemma RefusedKeeps(s: State, plan: Plan)
    requires DelivInv(s.post, s.store.durable) && WellFormed(s.store.durable, |s.store.journal|) && Genuine(s, plan)
    ensures DelivInv(RefuseCarrier(s, plan).post, s.store.durable)
  {
    hide DelivInv, WellFormed, Genuine, RefuseCarrier;
    var ownGone := if ClaimIs(s, plan.did, plan.claim) then {plan.did} else {};
    if plan.carried == [] {
      SingleIsKept(s, plan);
    } else {
      HeadIsAnother(s, plan);
      if ClaimIs(s, plan.carried[0].did, plan.claim) {
        var gone := ownGone + {plan.carried[0].did};
        GoneTogether(s, plan, gone);
        RestoreAfter(s, plan, s.post.(claims := s.post.claims - gone), gone);
      } else {
        GoneTogether(s, plan, ownGone);
        UnrestoredClaims(s, plan, ownGone);
      }
    }
  }

  lemma SingleIsKept(s: State, plan: Plan)
    requires plan.carried == []
    ensures RefuseCarrier(s, plan) == s
  {
  }

  lemma UnrestoredClaims(s: State, plan: Plan, gone: set<DeliveryId>)
    requires plan.carried != [] && !ClaimIs(s, plan.carried[0].did, plan.claim)
    requires gone == if ClaimIs(s, plan.did, plan.claim) then {plan.did} else {}
    ensures RefuseCarrier(s, plan).post == s.post.(claims := s.post.claims - gone)
  {
    assert RefuseCarrier(s, plan).post.claims == s.post.claims - gone;
  }

  lemma HeadIsAnother(s: State, plan: Plan)
    requires DelivInv(s.post, s.store.durable) && Genuine(s, plan) && plan.carried != []
    ensures plan.claim in s.post.parcels && plan.did != plan.carried[0].did
  {
    assert ParcelOk(s.post.parcels, s.post.parcels[plan.claim]);
  }

  lemma GoneTogether(s: State, plan: Plan, gone: set<DeliveryId>)
    requires DelivInv(s.post, s.store.durable) && Genuine(s, plan) && plan.carried != []
    requires gone <= {plan.did, plan.carried[0].did} && (plan.did in gone <==> ClaimIs(s, plan.did, plan.claim))
    requires plan.carried[0].did in gone ==> ClaimIs(s, plan.carried[0].did, plan.claim)
    ensures DelivInv(s.post.(claims := s.post.claims - gone), s.store.durable)
  {
    var p := s.post;
    forall t | Carrying(p.claims, p.parcels, t) && p.parcels[t].carried[0].did in gone ensures p.parcels[t].did in gone {
      assert CarrierOk(p.claims, p.receipts, s.store.durable, t, p.parcels[t]);
    }
    hide DelivInv;
    FewerClaimsKeep(p, gone, s.store.durable);
  }

  /** Whether a held delivery may go back to its receiver. */
  predicate Restorable(s: State, held: Parcel) {
    && !DeliveryStopped(s, held.delegate, held.owner) && s.store.durable[held.delegate].queue != []
    && s.store.durable[held.delegate].queue[0].did == held.did
  }

  lemma RefusedClaims(s: State, plan: Plan, gone: set<DeliveryId>)
    requires plan.carried != [] && ClaimIs(s, plan.carried[0].did, plan.claim) && plan.did != plan.carried[0].did
    requires plan.heldClaim in s.post.parcels && s.post.parcels[plan.heldClaim].did == plan.carried[0].did
    requires gone == (if ClaimIs(s, plan.did, plan.claim) then {plan.did} else {}) + {plan.carried[0].did}
    ensures var claims := s.post.claims - gone;
            RefuseCarrier(s, plan).post == s.post.(claims :=
              if Restorable(s, s.post.parcels[plan.heldClaim]) then claims[plan.carried[0].did := plan.heldClaim] else claims)
  {
    hide DeliveryStopped;
    var n := RefuseCarrier(s, plan);
    var claims := s.post.claims - gone;
    if Restorable(s, s.post.parcels[plan.heldClaim]) {
      assert n.post.claims == claims[plan.carried[0].did := plan.heldClaim];
    } else {
      assert n.post.claims == claims;
    }
  }

  lemma RestoreAfter(s: State, plan: Plan, q: Post, gone: set<DeliveryId>)
    requires DelivInv(s.post, s.store.durable) && WellFormed(s.store.durable, |s.store.journal|) && Genuine(s, plan) && plan.carried != []
    requires ClaimIs(s, plan.carried[0].did, plan.claim) && plan.did != plan.carried[0].did
    requires gone == (if ClaimIs(s, plan.did, plan.claim) then {plan.did} else {}) + {plan.carried[0].did}
    requires q == s.post.(claims := s.post.claims - gone) && DelivInv(q, s.store.durable)
    ensures DelivInv(RefuseCarrier(s, plan).post, s.store.durable)
  {
    hide WellFormed, CarriersOk, HeldOk, OwnersOk, KeysOk, RefuseCarrier, DeliveryStopped;
    var p := s.post;
    assert ParcelOk(p.parcels, p.parcels[plan.claim]);
    RefusedClaims(s, plan, gone);
    if Restorable(s, p.parcels[plan.heldClaim]) {
      HeldIsFree(p, plan.carried[0].did);
      RestorableIsThere(s, p.parcels[plan.heldClaim]);
      RestoredKeeps(q, plan.heldClaim, s.store.durable, |s.store.journal|);
    }
  }

  lemma RestorableIsThere(s: State, held: Parcel)
    requires Restorable(s, held)
    ensures held.delegate in s.store.durable
  {
  }

  lemma HeldIsFree(p: Post, did: DeliveryId)
    requires OneHolder(p.claims, p.receipts) && did in p.claims
    ensures !Received(p.receipts, did)
  {
  }

  lemma CurrentIsAdmissible(s: State, plan: Plan)
    requires Genuine(s, plan) && PlanCurrent(s, plan) && !HasReceipt(s, plan.did)
    ensures Admissible(s.post, s.store.durable, plan)
  {
  }

  /** The same parcel, but for its waiter and flags. */
  predicate Flagged(c: Parcel, c': Parcel) {
    c' == c.(waiter := c'.waiter, refused := c'.refused, held := c'.held)
  }

  lemma FlaggedParcels(p: Post, t: Token, c: Parcel)
    requires ParcelsOk(p.parcels) && t in p.parcels && Flagged(p.parcels[t], c)
    ensures ParcelsOk(p.parcels[t := c])
  {
    var parcels' := p.parcels[t := c];
    forall u | u in parcels' ensures ParcelOk(parcels', parcels'[u]) { assert ParcelOk(p.parcels, p.parcels[u]); }
  }

  lemma FlaggedKeys(p: Post, t: Token, c: Parcel, d: Durable)
    requires KeysOk(p.claims, p.parcels) && OwnersOk(p.parcels, d) && HeldOk(p.receipts, p.parcels) && t in p.parcels && Flagged(p.parcels[t], c)
    ensures KeysOk(p.claims, p.parcels[t := c]) && OwnersOk(p.parcels[t := c], d) && HeldOk(p.receipts, p.parcels[t := c])
  {
    forall key | key in p.claims ensures KeyOk(p.parcels[t := c], key, p.claims[key]) { assert KeyOk(p.parcels, key, p.claims[key]); }
  }

  lemma FlaggedCarriers(p: Post, t: Token, c: Parcel, d: Durable)
    requires CarriersOk(p.claims, p.parcels, p.receipts, d) && t in p.parcels && Flagged(p.parcels[t], c)
    ensures CarriersOk(p.claims, p.parcels[t := c], p.receipts, d)
  {
    var parcels' := p.parcels[t := c];
    forall u | Carrying(p.claims, parcels', u) ensures CarrierOk(p.claims, p.receipts, d, u, parcels'[u]) {
      assert Carrying(p.claims, p.parcels, u);
      assert CarrierOk(p.claims, p.receipts, d, u, p.parcels[u]);
    }
  }

  lemma FlaggedKeeps(p: Post, t: Token, c: Parcel, d: Durable)
    requires DelivInv(p, d) && t in p.parcels && Flagged(p.parcels[t], c)
    ensures DelivInv(p.(parcels := p.parcels[t := c]), d)
  {
    hide OneHolder, ParcelsOk, KeysOk, OwnersOk, HeldOk, CarriersOk, Flagged;
    FlaggedParcels(p, t, c);
    FlaggedKeys(p, t, c, d);
    FlaggedCarriers(p, t, c, d);
  }

  lemma OwnClaimGoes(p: Post, did: DeliveryId, d: Durable)
    requires DelivInv(p, d) && forall t | Carrying(p.claims, p.parcels, t) :: p.parcels[t].carried[0].did != did
    ensures DelivInv(p.(claims := p.claims - {did}), d)
  {
    hide DelivInv;
    FewerClaimsKeep(p, {did}, d);
  }

  /** A parcel's own delivery is no other carrier's head. */
  lemma OwnIsNoHead(p: Post, d: Durable, t: Token)
    requires DelivInv(p, d) && t in p.parcels && p.parcels[t].did in p.claims && p.claims[p.parcels[t].did] == t
    ensures forall u | Carrying(p.claims, p.parcels, u) :: p.parcels[u].carried[0].did != p.parcels[t].did
  {
    forall u | Carrying(p.claims, p.parcels, u) ensures p.parcels[u].carried[0].did != p.parcels[t].did {
      assert CarrierOk(p.claims, p.receipts, d, u, p.parcels[u]);
      assert ParcelOk(p.parcels, p.parcels[u]);
    }
  }

  lemma StoppedDeliveryKeeps(s: State, plan: Plan)
    requires DelivInv(s.post, s.store.durable) && WellFormed(s.store.durable, |s.store.journal|) && Genuine(s, plan) && PlanCurrent(s, plan)
    ensures DelivInv(RefuseCarrier(s.(post := s.post.(claims := s.post.claims - {plan.did})), plan).post, s.store.durable)
  {
    hide DelivInv, WellFormed, RefuseCarrier;
    OwnIsNoHead(s.post, s.store.durable, plan.claim);
    OwnClaimGoes(s.post, plan.did, s.store.durable);
    RefusedKeeps(s.(post := s.post.(claims := s.post.claims - {plan.did})), plan);
  }

  lemma HandOverKeeps(s: State, w: Token, d: Durable)
    requires DelivInv(s.post, d)
    ensures DelivInv(HandOver(s, w).post, d)
  {
    hide DelivInv;
    WaitersAside(s.post, HandOver(s, w).post, d);
  }

  lemma DecideKeeps(s: State, plan: Plan)
    requires DelivInv(s.post, s.store.durable) && WellFormed(s.store.durable, |s.store.journal|) && Minted(s.post.receipts.Keys, s.nextToken)
    requires Genuine(s, plan)
    ensures DelivInv(Decide(s, plan).post, s.store.durable)
  {
    hide DelivInv, WellFormed, RefuseCarrier, Admit, Genuine, Minted, PlanCurrent, AttentionReserved, DeliveryStopped, Admissible;
    var d := s.store.durable;
    if HasReceipt(s, plan.did) || !PlanCurrent(s, plan) {
      RefusedKeeps(s, plan);
    } else if DeliveryStopped(s, plan.delegate, plan.owner) {
      StoppedDeliveryKeeps(s, plan);
    } else {
      CurrentIsAdmissible(s, plan);
      AdmissibleClaim(s.post, d, plan);
      FlaggedKeeps(s.post, plan.claim, s.post.parcels[plan.claim].(waiter := 0, refused := true), d);
      AdmitKeeps(s, plan, d, |s.store.journal|);
    }
  }

  lemma BeginDeliveryKeeps(s: State, plan: Plan)
    requires DelivInv(s.post, s.store.durable) && WellFormed(s.store.durable, |s.store.journal|) && Minted(s.post.receipts.Keys, s.nextToken)
    ensures DelivInv(BeginDelivery(s, plan).post, s.store.durable)
  {
    hide DelivInv, WellFormed, Decide, HandOver, Genuine, RetryMatches, Minted;
    if Genuine(s, plan) {
      if Retries(s, plan) { MarkedReceiptsKeep(s.post, ReceiptFor(s, plan.did).value, false, s.store.durable); }
      else {
        DecideKeeps(s, plan);
        HandOverKeeps(Decide(s, plan), plan.waiter, s.store.durable);
      }
    }
  }

  // ---- Completion ----

  lemma OnlyOneReceipt(p: Post, t: Token)
    requires OneHolder(p.claims, p.receipts) && t in p.receipts
    ensures !Received(p.receipts - {t}, p.receipts[t].did)
  {
  }

  /** An abandoned reply gives the held head back. */
  lemma AbandonKeeps(s: State, t: Token)
    requires DelivInv(s.post, s.store.durable) && WellFormed(s.store.durable, |s.store.journal|) && t in s.post.receipts
    requires s.post.receipts[t].held != 0 && s.post.receipts[t].did !in s.post.claims
    ensures DelivInv(s.post.(receipts := s.post.receipts - {t}, claims := RestoreHeld(s, s.post.receipts[t].held)), s.store.durable)
  {
    var p, r := s.post, s.post.receipts[t];
    var q := p.(receipts := p.receipts - {t});
    FewerReceiptsKeep(p, t, s.store.durable);
    OnlyOneReceipt(p, t);
    assert HeldOk(p.receipts, p.parcels);
    var held := p.parcels[r.held];
    RestoredClaims(s, r.held);
    hide DelivInv, WellFormed;
    if Restorable(s, held) {
      RestorableIsThere(s, held);
      RestoredKeeps(q, r.held, s.store.durable, |s.store.journal|);
    }
  }

  lemma RestoredClaims(s: State, held: Token)
    requires held in s.post.parcels && s.post.parcels[held].did !in s.post.claims
    ensures RestoreHeld(s, held) == if Restorable(s, s.post.parcels[held]) then s.post.claims[s.post.parcels[held].did := held] else s.post.claims
  {
    hide DeliveryStopped;
    assert s.post.claims - {s.post.parcels[held].did} == s.post.claims;
  }

  lemma AckKeeps(p: Post, d: Durable, d': Durable, r: Receipt, t: Token)
    requires DelivInv(p, d) && t in p.receipts && p.receipts[t] == r
    requires SameWork(d, d') && r.delegate in d && d[r.delegate].queue != [] && d[r.delegate].queue[0].did == r.did
    requires forall i | i in d :: d'[i].queue == if i == r.delegate then d[i].queue[1..] else d[i].queue
    ensures DelivInv(p, d')
  {
    forall u | Carrying(p.claims, p.parcels, u) ensures p.parcels[u].delegate in d && p.parcels[u].delegate != r.delegate {
      CarriedHeadIsFree(p, d, u);
    }
    hide DelivInv;
    QueueChangeKeeps(p, d, d');
  }

  lemma CompleteDeliveryKeeps(s: State, t: Token, committed: bool, wake: nat, storeOk: bool)
    requires DelivInv(s.post, s.store.durable) && JournalInv(s.store.journal, s.store.durable)
    ensures var n := CompleteDelivery(s, t, committed, wake, storeOk); DelivInv(n.post, n.store.durable)
  {
    hide DelivInv, WellFormed, RestoreHeld, Append, Note, Wrote, SameWork, Fold;
    var n := CompleteDelivery(s, t, committed, wake, storeOk);
    if t in s.post.receipts {
      CompleteDeliveryWrites(s, t, committed, wake, storeOk);
      FewerReceiptsKeep(s.post, t, s.store.durable);
      MarkedReceiptsKeep(s.post, t, true, s.store.durable);
      if !committed && s.post.receipts[t].held != 0 && s.post.receipts[t].did !in s.post.claims { AbandonKeeps(s, t); }
      if n.store != s.store {
        AckKeeps(s.post, s.store.durable, n.store.durable, s.post.receipts[t], t);
        FewerReceiptsKeep(s.post, t, n.store.durable);
        WaitersAside(s.post.(receipts := s.post.receipts - {t}), n.post, n.store.durable);
      }
    }
  }

  // ---- The other delivery steps ----

  /** Holding a claim, a carrier's too, changes nobody's hands. */
  lemma HoldKeeps(s: State, plan: Plan)
    requires DelivInv(s.post, s.store.durable)
    ensures DelivInv(HoldClaim(s, plan).post, s.store.durable)
  {
    hide DelivInv, Genuine;
    if plan.claim in s.post.parcels {
      FlaggedKeeps(s.post, plan.claim, s.post.parcels[plan.claim].(held := true), s.store.durable);
    }
  }

  lemma DropKeeps(s: State, plan: Plan)
    requires DelivInv(s.post, s.store.durable)
    ensures DelivInv(DropClaim(s, plan).post, s.store.durable)
  {
    hide DelivInv;
    if Genuine(s, plan) && ClaimIs(s, plan.did, plan.claim) && plan.claim in s.post.parcels {
      OwnIsNoHead(s.post, s.store.durable, plan.claim);
      OwnClaimGoes(s.post, plan.did, s.store.durable);
      WaitersAside(s.post.(claims := s.post.claims - {plan.did}), DropClaim(s, plan).post, s.store.durable);
    }
  }

  lemma LeaveKeeps(s: State, t: Token)
    requires DelivInv(s.post, s.store.durable)
    ensures DelivInv(LeaveForRetry(s, t).post, s.store.durable)
  {
    hide DelivInv;
    if t in s.post.receipts { MarkedReceiptsKeep(s.post, t, true, s.store.durable); }
  }

  lemma WaiterStepKeeps(s: State, x: DeliverStep)
    requires DelivInv(s.post, s.store.durable) && (x.DoWithdrawWaiter? || x.DoDropStoppedWaiter? || x.DoAnswerWaiter?)
    ensures DelivInv(NextDeliver(s, x).post, s.store.durable)
  {
    hide DelivInv, WithdrawWaiter, DropStoppedWaiter, AnswerWaiter;
    WaitersAside(s.post, NextDeliver(s, x).post, s.store.durable);
  }

  lemma PostUpdateKeeps(s: State, l: Lease, note: Packet, storeOk: bool)
    requires DelivInv(s.post, s.store.durable) && JournalInv(s.store.journal, s.store.durable)
    ensures var n := PostUpdate(s, l, note, storeOk); DelivInv(n.post, n.store.durable)
  {
    hide DelivInv, JournalInv, PostUpdate, Wrote, QueuesGrow;
    PostUpdateTame(s, l, note, storeOk);
    TameKeeps(s, PostUpdate(s, l, note, storeOk));
  }

  /** A step that opens no run, drops no delivery and touches no claim or receipt keeps exclusivity. */
  lemma TameKeeps(s: State, n: State)
    requires DelivInv(s.post, s.store.durable) && Calmer(s.store.durable, n.store.durable) && QueuesGrow(s.store.durable, n.store.durable)
    requires n.post.claims == s.post.claims && n.post.receipts == s.post.receipts && n.post.parcels == s.post.parcels
    ensures DelivInv(n.post, n.store.durable)
  {
    SameParents(s.store.durable, n.store.durable);
    hide DelivInv, QueuesGrow, Calmer;
    GrowthKeeps(s.post, s.store.durable, n.store.durable);
    WaitersAside(s.post, n.post, n.store.durable);
  }

  lemma SameParents(d: Durable, d': Durable)
    requires Calmer(d, d')
    ensures forall i | i in d :: i in d' && d'[i].parent == d[i].parent
  {
    forall i | i in d ensures i in d' && d'[i].parent == d[i].parent {
      assert ShapeOf(d)[i] == ShapeOf(d')[i];
    }
  }

  lemma DeliverKeeps(s: State, x: DeliverStep)
    requires DelivInv(s.post, s.store.durable) && JournalInv(s.store.journal, s.store.durable)
    requires Minted(s.post.receipts.Keys, s.nextToken) && Minted(s.post.parcels.Keys, s.nextToken)
    requires !Overtaken(NextDeliver(s, x).post.parcels)
    ensures var n := NextDeliver(s, x); DelivInv(n.post, n.store.durable)
  {
    hide Overtaken, DelivInv, WellFormed, Fold, Minted, PostUpdate, PlanDelivery, BeginDelivery, CompleteDelivery, LeaveForRetry, HoldClaim, DropClaim,
         WithdrawWaiter, DropStoppedWaiter, AnswerWaiter;
    match x
    case DoPostUpdate(l, note, ok) => PostUpdateKeeps(s, l, note, ok);
    case DoPlanDelivery(id, did) => PlanDeliveryKeeps(s, id, did);
    case DoBeginDelivery(p) => BeginDeliveryKeeps(s, p);
    case DoCompleteDelivery(t, c, w, ok) => CompleteDeliveryKeeps(s, t, c, w, ok);
    case DoLeaveForRetry(t) => LeaveKeeps(s, t);
    case DoHoldClaim(p) => HoldKeeps(s, p);
    case DoDropClaim(p) => DropKeeps(s, p);
    case _ => WaiterStepKeeps(s, x);
  }
}
