/** What each delivery operation leaves behind: claims, receipts, wakes and waiters, case by case. */
module DeliverOutcomes {
  import opened Types
  import opened Journal
  import opened JournalLaws
  import opened State
  import opened Delivering
  import opened Effects

  // ---- Who may deliver ----

  /** A delivery is refused for good once the tree closes, or a stop covers its sender or its owner. */
  lemma StoppedExactly(s: State, delegate: Id, owner: Id)
    ensures DeliveryStopped(s, delegate, owner) <==>
            !(&& !s.closing && delegate in s.store.durable && s.store.durable[delegate].pendingStop == 0
              && (owner == NO_ID || (owner in s.store.durable && s.store.durable[owner].pendingStop == 0))
              && (s.stop.Some? ==> delegate !in s.stop.value.members && owner !in s.stop.value.members))
  {
  }

  /** The root and a resident owner receive warm, an idle one cold; a cold owner takes one delivery at a time. */
  lemma ReceiversExactly(s: State, owner: Id)
    ensures ReceiverOf(s, owner) == (if owner == NO_ID || (owner in s.runs.live && s.runs.live[owner].runtime != 0) then Warm
                                     else if owner in s.store.durable && s.store.durable[owner].phase == Idle then Cold else NoReceiver)
    ensures ColdDeliveryWork(s, owner) <==>
            !(&& (forall k | k in s.post.claims && s.post.claims[k] in s.post.parcels ::
                    s.post.parcels[s.post.claims[k]].owner == owner ==> !s.post.parcels[s.post.claims[k]].cold)
              && (forall t | t in s.post.receipts :: s.post.receipts[t].owner == owner ==> !s.post.receipts[t].cold))
    ensures forall refusedToo: bool :: DeliveryWork(s, owner, refusedToo) <==>
            owner != NO_ID &&
            !(&& (forall k | k in s.post.claims && s.post.claims[k] in s.post.parcels && s.post.parcels[s.post.claims[k]].owner == owner ::
                    refusedToo && s.post.parcels[s.post.claims[k]].refused)
              && (forall t | t in s.post.receipts :: s.post.receipts[t].owner != owner))
  {
  }

  // ---- Updates and plans ----

  /** An update is taken from an admitted run nobody is settling, when the store takes it; otherwise nothing happens. */
  lemma UpdatePostedExactly(s: State, l: Lease, note: Packet, storeOk: bool)
    requires JournalInv(s.store.journal, s.store.durable)
    ensures var n := PostUpdate(s, l, note, storeOk);
            if storeOk && Admitted(s, l) && (forall t | t in s.tables.settlements :: s.tables.settlements[t].lease != l)
            then n.store.journal == s.store.journal + [UpdatePosted(l.id, l.generation, note)] else n == s
  {
    if Admitted(s, l) {
      assert AggregateOk(l.id, s.store.durable[l.id], |s.store.journal|);
      forall k | 0 <= k < |s.store.durable[l.id].queue| ensures s.store.durable[l.id].queue[k].did != Update(l.id, |s.store.journal| + 1) {
        assert DidOk(l.id, s.store.durable[l.id], |s.store.journal|, s.store.durable[l.id].queue[k].did);
      }
      OneEvent(s.store.durable, |s.store.journal|, UpdatePosted(l.id, l.generation, note));
    }
    hide Fenced, Reclaimed, ApplyBatch, WellFormed, Fold;
  }

  /** Which delivery may be planned: the head, or a report behind it that answers a waiter while the owner holds the head. */
  lemma PlannableExactly(s: State, id: Id, did: DeliveryId)
    ensures Plannable(s, id, did) <==>
            && !s.closing && id in s.store.durable && s.store.durable[id].pendingStop == 0
            && var q, at := s.store.durable[id].queue, IndexIn(s.store.durable[id].queue, did);
            && at < |q| && !DeliveryStopped(s, id, q[at].owner) && did !in s.post.claims && (forall t | t in s.post.receipts :: s.post.receipts[t].did != did)
            && ReceiverOf(s, q[at].owner) != NoReceiver && (ReceiverOf(s, q[at].owner) == Cold ==> !ColdDeliveryWork(s, q[at].owner))
            && (at > 0 ==>
                  && q[at].packet.kind != UpdatePacket && q[at].generation in WaitersAt(s.runs.live, id)
                  && (forall k | 0 <= k < at :: q[k].owner == q[at].owner)
                  && (forall k | 1 <= k < at :: q[k].did !in s.post.claims && forall t | t in s.post.receipts :: s.post.receipts[t].did != q[k].did)
                  && q[0].did in s.post.claims && s.post.claims[q[0].did] in s.post.parcels && s.post.parcels[s.post.claims[q[0].did]].held)
  {
    hide DeliveryStopped, ReceiverOf, ColdDeliveryWork;
  }

  /** The waiter a plan takes with it: its generation's, unless it delivers an update. */
  function WaiterFor(s: State, id: Id, p: Pending): Token {
    if p.packet.kind != UpdatePacket && p.generation in WaitersAt(s.runs.live, id) then WaitersAt(s.runs.live, id)[p.generation] else 0
  }

  /** The claims, parcel and waiter a plan leaves. */
  lemma PlanLeaves(s: State, id: Id, did: DeliveryId)
    ensures var n := PlanDelivery(s, id, did);
            if !Plannable(s, id, did) then n == s
            else
              var q, at, t := s.store.durable[id].queue, IndexIn(s.store.durable[id].queue, did), s.nextToken + 1;
              var w := WaiterFor(s, id, q[at]);
              && n.nextToken == t && n.post.receipts == s.post.receipts
              && n.post.parcels == s.post.parcels[t := Parcel(did, id, q[at].owner, q[at].packet, w, w, ReceiverOf(s, q[at].owner) == Cold, false, false, q[..at],
                                                             if at == 0 then 0 else s.post.claims[q[0].did])]
              && n.post.claims == (if at == 0 then s.post.claims[did := t] else s.post.claims[did := t][q[0].did := t])
              && n.post.waiters == (if w in s.post.waiters then s.post.waiters[w := Claimed(t)] else s.post.waiters)
              && n.runs.live.Keys == s.runs.live.Keys
              && forall i | i in s.runs.live ::
                   n.runs.live[i] == if i == id && w != 0 then s.runs.live[i].(waiters := s.runs.live[i].waiters - {q[at].generation}) else s.runs.live[i]
  {
    hide DeliveryStopped, ReceiverOf, ColdDeliveryWork, HasReceipt, SameSteers, EvidenceGrows, SameLeases, Carriable;
    if Plannable(s, id, did) {
      var q := s.store.durable[id].queue;
      var at := IndexIn(q, did);
      assert at > 0 ==> q[..at][0] == q[0];
      assert at == 0 ==> q[..at] == [];
      assert at > 0 ==> q[..at] != [];
    }
  }

  // ---- Beginning a delivery ----

  /** A retry takes its receipt up again and touches nothing else; any other plan is decided, and its waiter passes to its executor. */
  lemma DeliveryBegun(s: State, p: Plan)
    ensures var n := BeginDelivery(s, p);
            if !Genuine(s, p) then n == s
            else if Retries(s, p) then
              var t := ReceiptFor(s, p.did).value;
              t in s.post.receipts && n == s.(post := s.post.(receipts := s.post.receipts[t := s.post.receipts[t].(retryable := false)]))
            else
              var m := Decide(s, p);
              n == m.(post := m.post.(waiters := if p.waiter in m.post.waiters && m.post.waiters[p.waiter].Claimed? then m.post.waiters[p.waiter := Owed] else m.post.waiters))
  {
    hide Genuine, RetryMatches, Decide;
  }

  /** A plan takes an admitted delivery up again when its acknowledgement failed, it is the same plan to the same owner, it answers
      nobody, and its delivery is still the head. */
  lemma RetriesExactly(s: State, p: Plan)
    ensures Retries(s, p) <==>
            && ReceiptFor(s, p.did).Some?
            && var r := s.post.receipts[ReceiptFor(s, p.did).value];
            && r.retryable && r.claim == p.claim && r.delegate == p.delegate && r.owner == p.owner && p.waiter == 0
            && r.delegate in s.store.durable && s.store.durable[r.delegate].queue != []
            && s.store.durable[r.delegate].queue[0].did == p.did && s.store.durable[r.delegate].queue[0].packet == p.packet
  {
  }

  /** The plan still matches its claim and the queue. */
  lemma CurrentExactly(s: State, p: Plan)
    ensures PlanCurrent(s, p) <==>
            && p.did in s.post.claims && s.post.claims[p.did] == p.claim && p.claim in s.post.parcels
            && s.post.parcels[p.claim].delegate == p.delegate && s.post.parcels[p.claim].owner == p.owner && s.post.parcels[p.claim].waiter == p.waiter
            && p.delegate in s.store.durable
            && var q, m := s.store.durable[p.delegate].queue, |p.carried|;
            m < |q| && p.carried == q[..m] && q[m].did == p.did && q[m].owner == p.owner && q[m].packet == p.packet
  {
  }

  /** A plan that is stale or already received is refused; a stopped one loses its claim; one whose owner is starting on an attention
      keeps its claim without its waiter; any other is admitted. */
  lemma DecisionIs(s: State, p: Plan)
    ensures var n := Decide(s, p);
            if (exists t | t in s.post.receipts :: s.post.receipts[t].did == p.did) || !PlanCurrent(s, p) then n == RefuseCarrier(s, p)
            else if DeliveryStopped(s, p.delegate, p.owner) then n == RefuseCarrier(s.(post := s.post.(claims := s.post.claims - {p.did})), p)
            else if p.owner != NO_ID && exists t | t in s.runs.reservations :: s.runs.reservations[t].id == p.owner && s.runs.reservations[t].trigger == AttentionTrigger
            then p.claim in s.post.parcels && n == s.(post := s.post.(parcels := s.post.parcels[p.claim := s.post.parcels[p.claim].(waiter := 0, refused := true)]))
            else p.claim in s.post.parcels && n == Admit(s, p)
  {
    hide PlanCurrent, DeliveryStopped, RefuseCarrier, Admit;
    if PlanCurrent(s, p) { CurrentParcel(s, p); }
  }

  /** Whether a held delivery may go back to its receiver: still the head, and nothing stops it for good. */
  predicate StillHead(s: State, c: Parcel) {
    !DeliveryStopped(s, c.delegate, c.owner) && c.delegate in s.store.durable && s.store.durable[c.delegate].queue != []
    && s.store.durable[c.delegate].queue[0].did == c.did
  }

  lemma RestoreGivesBack(s: State, held: Token)
    ensures var claims := RestoreHeld(s, held);
            if held !in s.post.parcels then claims == s.post.claims
            else
              var c := s.post.parcels[held];
              && (forall k | k != c.did :: k in claims <==> k in s.post.claims) && (forall k | k in claims && k != c.did :: claims[k] == s.post.claims[k])
              && (c.did in claims <==> StillHead(s, c)) && (c.did in claims ==> claims[c.did] == held)
  {
    hide DeliveryStopped;
    if held in s.post.parcels && !DeliveryStopped(s, s.post.parcels[held].delegate, s.post.parcels[held].owner) {
      StoppedExactly(s, s.post.parcels[held].delegate, s.post.parcels[held].owner);
    }
  }

  /** A refused carrier gives up both its claims; the head it still claims goes back to whoever held it. */
  lemma RefusalGivesUp(s: State, p: Plan)
    ensures var n := RefuseCarrier(s, p);
            if p.carried == [] then n == s
            else
              var mid := if p.carried[0].did in s.post.claims && s.post.claims[p.carried[0].did] == p.claim then RestoreHeld(s, p.heldClaim) else s.post.claims;
              n.post.claims == if p.did in mid && mid[p.did] == p.claim then mid - {p.did} else mid
  {
    hide RestoreHeld;
  }

  /** The receipt the `k`-th delivery of an admitted batch gets: the held head keeps its receiver's claim, the plan's own its own. */
  function BatchReceipt(s: State, p: Plan, k: nat): Receipt
    requires p.claim in s.post.parcels && k <= |p.carried|
  {
    var cold, inline := s.post.parcels[p.claim].cold, p.waiter != 0 || p.callerCommitted;
    if k == |p.carried| then Receipt(p.did, p.delegate, p.owner, p.claim, cold, inline, false, 0)
    else if k == 0 then Receipt(p.carried[0].did, p.delegate, p.owner, p.heldClaim, cold, inline, false, p.heldClaim)
    else Receipt(p.carried[k].did, p.delegate, p.owner, 0, cold, inline, false, 0)
  }

  lemma {:induction false} CarriedAdmitted(receipts: map<Token, Receipt>, s: State, p: Plan, next: Token, k: nat, u: Token)
    requires p.claim in s.post.parcels && 1 <= k <= |p.carried|
    ensures var r := AdmitCarried(receipts, p, s.post.parcels[p.claim].cold, p.waiter != 0 || p.callerCommitted, next, k);
            if next < u <= next + k then u in r && r[u] == BatchReceipt(s, p, u - next - 1)
            else (u in r <==> u in receipts) && (u in r ==> r[u] == receipts[u])
  {
    if k > 1 { CarriedAdmitted(receipts, s, p, next, k - 1, u); }
  }

  /** Admission turns the plan's claims into one receipt per delivery of the batch, in order, and nothing else. */
  lemma AdmissionReceives(s: State, p: Plan, u: Token)
    requires p.claim in s.post.parcels
    ensures var n, m := Admit(s, p), |p.carried|;
            && n.nextToken == s.nextToken + m + 1 && n.post.claims == s.post.claims - (if m == 0 then {p.did} else {p.did, p.carried[0].did})
            && if s.nextToken < u <= n.nextToken then u in n.post.receipts && n.post.receipts[u] == BatchReceipt(s, p, u - s.nextToken - 1)
               else (u in n.post.receipts <==> u in s.post.receipts) && (u in n.post.receipts ==> n.post.receipts[u] == s.post.receipts[u])
  {
    hide AdmitCarried;
    if p.carried != [] { CarriedAdmitted(s.post.receipts, s, p, s.nextToken, |p.carried|, u); }
  }

  // ---- Completing a delivery ----

  /** The receipt leaves its table and the stop. */
  predicate ReceiptGone(s: State, n: State, t: Token) {
    && n.post.receipts == s.post.receipts - {t}
    && (if s.stop.None? then n.stop.None? else n.stop == Some(s.stop.value.(receipts := s.stop.value.receipts - {t})))
  }

  /** Its delivery is still the head of its delegate's queue. */
  predicate AtHead(s: State, r: Receipt) {
    r.delegate in s.store.durable && s.store.durable[r.delegate].queue != [] && s.store.durable[r.delegate].queue[0].did == r.did
  }

  /** An owner that was told by notification owes a wake for it. */
  predicate Notified(s: State, r: Receipt, wake: nat) {
    !r.inline && r.owner != NO_ID && r.owner in s.store.durable && wake != 0
  }

  /** Abandoned: the receipt goes, and a head a reply had taken over goes back unless someone claims it again. Nobody is woken. */
  lemma DeliveryAbandoned(s: State, t: Token, wake: nat, storeOk: bool)
    requires t in s.post.receipts
    ensures var n, r := CompleteDelivery(s, t, false, wake, storeOk), s.post.receipts[t];
            && ReceiptGone(s, n, t) && n.store == s.store && n.post.attention == s.post.attention
            && n.post.claims == if r.held != 0 && r.did !in s.post.claims then RestoreHeld(s, r.held) else s.post.claims
  {
    hide RestoreHeld;
  }

  /** Stale: the receipt goes and nothing else happens. */
  lemma StaleDeliveryDropped(s: State, t: Token, wake: nat, storeOk: bool)
    requires t in s.post.receipts && !AtHead(s, s.post.receipts[t])
    ensures var n := CompleteDelivery(s, t, true, wake, storeOk);
            ReceiptGone(s, n, t) && n.store == s.store && n.post.attention == s.post.attention && n.post.claims == s.post.claims
  {
  }

  /** Acknowledged: the head is popped, the receipt goes, and an owner told by notification owes its wake besides those it owed. */
  lemma DeliveryAcknowledgedExactly(s: State, t: Token, wake: nat)
    requires t in s.post.receipts && AtHead(s, s.post.receipts[t])
    ensures var n, r := CompleteDelivery(s, t, true, wake, true), s.post.receipts[t];
            && ReceiptGone(s, n, t) && n.post.claims == s.post.claims && n.store.journal == s.store.journal + [DeliveryAcknowledged(r.delegate, r.did)]
            && n.store.durable == s.store.durable[r.delegate := s.store.durable[r.delegate].(queue := s.store.durable[r.delegate].queue[1..])]
            && (forall i :: WakesOf(n, i) == if i == r.owner && Notified(s, r, wake) then WakesOf(s, i) + {wake} else WakesOf(s, i))
  {
    var r := s.post.receipts[t];
    OneEvent(s.store.durable, |s.store.journal|, DeliveryAcknowledged(r.delegate, r.did));
    hide ApplyBatch, RestoreHeld;
  }

  /** Refused by the store: everything stays, the receipt to be retried. */
  lemma RefusedAcknowledgementStays(s: State, t: Token, wake: nat)
    requires t in s.post.receipts && AtHead(s, s.post.receipts[t])
    ensures var n := CompleteDelivery(s, t, true, wake, false);
            n == s.(post := s.post.(receipts := n.post.receipts)) && n.post.receipts == s.post.receipts[t := s.post.receipts[t].(retryable := true)]
  {
    hide RestoreHeld;
  }

  /** A plan of the delivery, without its waiter, then takes the receipt up again. */
  lemma RefusedAcknowledgementIsRetried(s: State, t: Token, wake: nat, p: Plan)
    requires t in s.post.receipts && AtHead(s, s.post.receipts[t]) && (forall u | u in s.post.receipts && u != t :: s.post.receipts[u].did != s.post.receipts[t].did)
    requires var r := s.post.receipts[t];
             && p.did == r.did && p.claim == r.claim && p.delegate == r.delegate && p.owner == r.owner && p.waiter == 0
             && p.packet == s.store.durable[r.delegate].queue[0].packet
    ensures Retries(CompleteDelivery(s, t, true, wake, false), p)
  {
    RefusedAcknowledgementStays(s, t, wake);
    var n := CompleteDelivery(s, t, true, wake, false);
    hide CompleteDelivery;
    assert n.post.receipts[t].did == p.did;
    assert HasReceipt(n, p.did);
  }

  lemma LeftForRetry(s: State, t: Token)
    ensures var n := LeaveForRetry(s, t);
            if t in s.post.receipts then n.post.receipts == s.post.receipts[t := s.post.receipts[t].(retryable := true)] else n == s
  {
  }

  /** A claim that is still the plan's and answers no waiter is held; nothing else of any parcel changes. */
  lemma ClaimHeld(s: State, p: Plan)
    ensures var n := HoldClaim(s, p);
            if p.waiter == 0 && Genuine(s, p) && p.claim in s.post.parcels && p.did in s.post.claims && s.post.claims[p.did] == p.claim
            then n.post.parcels == s.post.parcels[p.claim := s.post.parcels[p.claim].(held := true)] else n == s
  {
    hide Genuine;
  }

  /** A dropped claim's waiter is answered; the head a carrier claimed besides stays claimed. */
  lemma ClaimDropped(s: State, p: Plan)
    ensures var n := DropClaim(s, p);
            if Genuine(s, p) && p.claim in s.post.parcels && p.did in s.post.claims && s.post.claims[p.did] == p.claim
            then var w := s.post.parcels[p.claim].waiter;
                 && n.post.claims == s.post.claims - {p.did} && n.post.waiters.Keys == s.post.waiters.Keys
                 && forall x | x in s.post.waiters ::
                      n.post.waiters[x] == if x == w && (s.post.waiters[x].Claimed? || s.post.waiters[x].Owed?) then Answered else s.post.waiters[x]
            else n == s
  {
    hide Genuine;
  }

  // ---- Waiters ----

  /** The registration of `w`, if it is registered where it says. */
  predicate RegisteredAt(s: State, w: Token) {
    && w in s.post.waiters && s.post.waiters[w].Registered?
    && s.post.waiters[w].generation in WaitersAt(s.runs.live, s.post.waiters[w].id) && WaitersAt(s.runs.live, s.post.waiters[w].id)[s.post.waiters[w].generation] == w
  }

  /** One delegate's waiter of one generation is gone; no other runtime and no other waiter changes. */
  predicate WaiterGone(s: State, n: State, id: Id, g: nat) {
    && n.runs.live.Keys == s.runs.live.Keys
    && forall i | i in s.runs.live :: n.runs.live[i] == if i == id then s.runs.live[i].(waiters := s.runs.live[i].waiters - {g}) else s.runs.live[i]
  }

  /** A waiter withdraws only while it is registered. */
  lemma WaiterWithdrawn(s: State, w: Token)
    ensures var n := WithdrawWaiter(s, w);
            if RegisteredAt(s, w) then WaiterGone(s, n, s.post.waiters[w].id, s.post.waiters[w].generation) && n.post.waiters == s.post.waiters[w := Withdrawn]
            else n == s
  {
    hide SameSteers, EvidenceGrows, SameLeases;
  }

  /** A pending stop over a start takes its waiter back. */
  lemma StoppedWaiterTakenBack(s: State, l: Lease)
    ensures var n := DropStoppedWaiter(s, l);
            if l.id in s.store.durable && s.store.durable[l.id].pendingStop != 0 && l.generation in WaitersAt(s.runs.live, l.id)
            then var w := WaitersAt(s.runs.live, l.id)[l.generation];
                 WaiterGone(s, n, l.id, l.generation) && n.post.waiters == if w in s.post.waiters then s.post.waiters[w := Withdrawn] else s.post.waiters
            else n == s
  {
    hide SameSteers, EvidenceGrows, SameLeases;
  }

  lemma WaiterAnswered(s: State, w: Token)
    ensures var n := AnswerWaiter(s, w); if w in s.post.waiters && s.post.waiters[w].Owed? then n.post.waiters == s.post.waiters[w := Answered] else n == s
  {
  }
}
