/** Results on their way to their owner: plans, claims, receipts, carried batches and inline waiters. */
module Delivering {
  import opened Types
  import opened State

  function PostUpdate(s: State, l: Lease, note: Packet, storeOk: bool): (n: State)
    ensures n == s.(store := s.store.(journal := n.store.journal, durable := n.store.durable))
  {
    if !Admitted(s, l) || HasSettlement(s, l) then s
    else
      match Append(s, [UpdatePosted(l.id, l.generation, note)], storeOk)
      case Some(next) => next
      case None => s
  }

  // ---- Planning ----

  function IndexIn(q: seq<Pending>, did: DeliveryId): (k: nat)
    ensures k <= |q|
    ensures k < |q| ==> q[k].did == did
    ensures forall j | 0 <= j < k :: q[j].did != did
  {
    if q == [] then 0 else if q[0].did == did then 0 else 1 + IndexIn(q[1..], did)
  }

  /** The reply to `q[at]` may carry everything queued ahead of it: the owner holds the head, nothing behind it was planned,
      and the generation has a waiter. */
  predicate Carriable(s: State, id: Id, q: seq<Pending>, at: nat)
    requires at < |q|
  {
    && at >= 1
    && id in s.runs.live && q[at].generation in s.runs.live[id].waiters
    && (forall k | 0 <= k < at :: q[k].owner == q[at].owner)
    && (forall k | 1 <= k < at :: q[k].did !in s.post.claims && !HasReceipt(s, q[k].did))
    && q[0].did in s.post.claims && s.post.claims[q[0].did] in s.post.parcels && s.post.parcels[s.post.claims[q[0].did]].held
  }

  /** Planning a queued delivery: its head, or a report whose inline reply may carry the head its owner holds.
      Nobody plans an update behind the head. */
  predicate Plannable(s: State, id: Id, did: DeliveryId) {
    && !s.closing && id in s.store.durable && s.store.durable[id].pendingStop == 0
    && var q := s.store.durable[id].queue;
    && var at := IndexIn(q, did);
    && at < |q|
    && (at == 0 || (q[at].packet.kind != UpdatePacket && Carriable(s, id, q, at)))
    && !DeliveryStopped(s, id, q[at].owner)
    && did !in s.post.claims && !HasReceipt(s, did)
    && ReceiverOf(s, q[at].owner) != NoReceiver
    && !(ReceiverOf(s, q[at].owner) == Cold && ColdDeliveryWork(s, q[at].owner))
  }

  function PlannedParcel(s: State, id: Id, did: DeliveryId): Parcel
    requires Plannable(s, id, did)
  {
    var q := s.store.durable[id].queue;
    var at := IndexIn(q, did);
    var waiter := if q[at].packet.kind != UpdatePacket && id in s.runs.live && q[at].generation in s.runs.live[id].waiters
                  then s.runs.live[id].waiters[q[at].generation] else 0;
    Parcel(did, id, q[at].owner, q[at].packet, waiter, waiter, ReceiverOf(s, q[at].owner) == Cold, false, false,
           q[..at], if at == 0 then 0 else s.post.claims[q[0].did])
  }

  /** A waiter leaves its generation. */
  function Unregister(live: map<Id, Live>, id: Id, generation: nat): (r: map<Id, Live>)
    ensures SameLeases(live, r) && SameSteers(live, r) && EvidenceGrows(live, r)
  {
    if id in live then live[id := live[id].(waiters := live[id].waiters - {generation})] else live
  }

  function PlanDelivery(s: State, id: Id, did: DeliveryId): (n: State)
    ensures n == s.(nextToken := n.nextToken,
                    post := s.post.(parcels := n.post.parcels, claims := n.post.claims, waiters := n.post.waiters),
                    runs := s.runs.(live := n.runs.live))
    ensures SameSteers(s.runs.live, n.runs.live) && EvidenceGrows(s.runs.live, n.runs.live)
    ensures s.nextToken <= n.nextToken
    ensures SameLeases(s.runs.live, n.runs.live)
  {
    if !Plannable(s, id, did) then s
    else
      var t, p := s.nextToken + 1, PlannedParcel(s, id, did);
      var generation := s.store.durable[id].queue[IndexIn(s.store.durable[id].queue, did)].generation;
      s.(nextToken := t,
         post := s.post.(parcels := s.post.parcels[t := p],
         claims := if p.carried == [] then s.post.claims[did := t] else s.post.claims[did := t][p.carried[0].did := t],
         waiters := Moved(s.post.waiters, p.waiter, Claimed(t))),
         runs := s.runs.(live := if p.waiter == 0 then s.runs.live else Unregister(s.runs.live, id, generation)))
  }

  /** A plan the controller minted: a retry or a single delivery, or the exact carrier its claim was minted with.
      A plan whose claim still holds a waiter names it; only a refused plan is retried without. */
  predicate Genuine(s: State, p: Plan) {
    && (p.claim in s.post.parcels ==> s.post.parcels[p.claim].did == p.did)
    && (p.carried == [] || (p.claim in s.post.parcels && s.post.parcels[p.claim].carried == p.carried
                            && s.post.parcels[p.claim].heldClaim == p.heldClaim && s.post.parcels[p.claim].delegate == p.delegate))
    && (p.waiter != 0 ==> p.claim in s.post.parcels && s.post.parcels[p.claim].planWaiter == p.waiter)
    && (p.waiter == 0 && p.claim in s.post.parcels && ClaimIs(s, p.did, p.claim) ==> s.post.parcels[p.claim].waiter == 0)
  }

  // ---- Beginning a delivery ----

  predicate ClaimIs(s: State, key: DeliveryId, t: Token) {
    key in s.post.claims && s.post.claims[key] == t
  }

  /** A held delivery goes back to its receiver while it is still the head and nothing refuses it for good. */
  function RestoreHeld(s: State, held: Token): map<DeliveryId, Token> {
    if held !in s.post.parcels then s.post.claims
    else
      var p := s.post.parcels[held];
      var cleared := s.post.claims - {p.did};
      if !DeliveryStopped(s, p.delegate, p.owner) && s.store.durable[p.delegate].queue != [] && s.store.durable[p.delegate].queue[0].did == p.did
      then cleared[p.did := held] else cleared
  }

  /** A refused carrier gives the held head back and drops its own claim. */
  function RefuseCarrier(s: State, p: Plan): (n: State)
    ensures n == s.(post := s.post.(claims := n.post.claims))
  {
    if p.carried == [] then s
    else
      var restored := if ClaimIs(s, p.carried[0].did, p.claim) then s.(post := s.post.(claims := RestoreHeld(s, p.heldClaim))) else s;
      if ClaimIs(restored, p.did, p.claim) then restored.(post := restored.post.(claims := restored.post.claims - {p.did})) else restored
  }

  /** The executor of a plan answers its waiter next, whatever the admission said. */
  function HandOver(s: State, w: Token): (n: State)
    ensures n == s.(post := s.post.(waiters := n.post.waiters))
  {
    if w in s.post.waiters && s.post.waiters[w].Claimed? then s.(post := s.post.(waiters := s.post.waiters[w := Owed])) else s
  }

  predicate FirstReceipt(receipts: map<Token, Receipt>, did: DeliveryId, t: Token) {
    t in receipts && receipts[t].did == did && forall u | u in receipts && receipts[u].did == did :: t <= u
  }

  lemma {:induction false} SomeFirstReceipt(receipts: map<Token, Receipt>, did: DeliveryId, t: Token)
    requires t in receipts && receipts[t].did == did
    ensures exists u :: FirstReceipt(receipts, did, u)
    decreases t
  {
    if !FirstReceipt(receipts, did, t) {
      var u :| u in receipts && receipts[u].did == did && u < t;
      SomeFirstReceipt(receipts, did, u);
    }
  }

  /** The receipt of a delivery; the first one should there be more. */
  ghost function ReceiptFor(s: State, did: DeliveryId): (r: Option<Token>)
    ensures r.Some? <==> HasReceipt(s, did)
    ensures r.Some? ==> FirstReceipt(s.post.receipts, did, r.value)
  {
    if HasReceipt(s, did) then
      var t :| t in s.post.receipts && s.post.receipts[t].did == did;
      SomeFirstReceipt(s.post.receipts, did, t);
      var u :| FirstReceipt(s.post.receipts, did, u);
      Some(u)
    else None
  }

  /** The claim, the queue and the plan agree on what is delivered. */
  predicate PlanCurrent(s: State, p: Plan) {
    && ClaimIs(s, p.did, p.claim) && p.claim in s.post.parcels
    && var c := s.post.parcels[p.claim];
    && c.delegate == p.delegate && c.owner == p.owner && c.waiter == p.waiter
    && p.delegate in s.store.durable
    && var q := s.store.durable[p.delegate].queue;
    && |q| > |p.carried| && q[..|p.carried|] == p.carried
    && q[|p.carried|].did == p.did && q[|p.carried|].owner == p.owner && q[|p.carried|].packet == p.packet
  }

  lemma CurrentParcel(s: State, p: Plan)
    requires PlanCurrent(s, p)
    ensures p.claim in s.post.parcels
  {
  }

  /** Receipts for a carried batch: the held head under its receiver's own claim, the others under new ones. */
  function AdmitCarried(receipts: map<Token, Receipt>, p: Plan, cold: bool, inline: bool, next: Token, k: nat): map<Token, Receipt>
    requires 1 <= k <= |p.carried|
  {
    if k == 1 then
      receipts[next + 1 := Receipt(p.carried[0].did, p.delegate, p.owner, p.heldClaim, cold, inline, false, p.heldClaim)]
    else
      AdmitCarried(receipts, p, cold, inline, next, k - 1)
        [next + k := Receipt(p.carried[k - 1].did, p.delegate, p.owner, 0, cold, inline, false, 0)]
  }

  /** Admission: claims become receipts. */
  function Admit(s: State, p: Plan): (n: State)
    requires p.claim in s.post.parcels
    ensures n == s.(nextToken := n.nextToken, post := s.post.(claims := n.post.claims, receipts := n.post.receipts))
    ensures s.nextToken <= n.nextToken
  {
    var cold, inline, n := s.post.parcels[p.claim].cold, p.waiter != 0 || p.callerCommitted, |p.carried|;
    var carried := if n == 0 then s.post.receipts else AdmitCarried(s.post.receipts, p, cold, inline, s.nextToken, n);
    s.(nextToken := s.nextToken + n + 1,
       post := s.post.(claims := if n == 0 then s.post.claims - {p.did} else s.post.claims - {p.did, p.carried[0].did},
       receipts := carried[s.nextToken + n + 1 := Receipt(p.did, p.delegate, p.owner, p.claim, cold, inline, false, 0)]))
  }

  /** A retry of an admitted delivery whose acknowledgement failed takes its receipt up again. */
  predicate RetryMatches(s: State, t: Token, p: Plan)
    requires t in s.post.receipts
  {
    var r := s.post.receipts[t];
    && r.retryable && r.claim == p.claim && r.delegate == p.delegate && r.owner == p.owner && p.waiter == 0
    && r.delegate in s.store.durable && s.store.durable[r.delegate].queue != []
    && s.store.durable[r.delegate].queue[0].did == p.did && s.store.durable[r.delegate].queue[0].packet == p.packet
  }

  /** The receipt a plan retries, if it does. */
  ghost predicate Retries(s: State, p: Plan) {
    ReceiptFor(s, p.did).Some? && RetryMatches(s, ReceiptFor(s, p.did).value, p)
  }

  /** Refusing or admitting a plan that retries nothing, before its executor takes the waiter over. */
  function Decide(s: State, p: Plan): (n: State)
    ensures n == s.(nextToken := n.nextToken,
                    post := s.post.(claims := n.post.claims, receipts := n.post.receipts, parcels := n.post.parcels))
    ensures s.nextToken <= n.nextToken
  {
    if HasReceipt(s, p.did) || !PlanCurrent(s, p) then RefuseCarrier(s, p)
    else if DeliveryStopped(s, p.delegate, p.owner) then RefuseCarrier(s.(post := s.post.(claims := s.post.claims - {p.did})), p)
    else if p.owner != NO_ID && AttentionReserved(s, p.owner) then
      s.(post := s.post.(parcels := s.post.parcels[p.claim := s.post.parcels[p.claim].(waiter := 0, refused := true)]))
    else Admit(s, p)
  }

  ghost function BeginDelivery(s: State, p: Plan): (n: State)
    ensures n == s.(nextToken := n.nextToken,
                    post := s.post.(claims := n.post.claims, receipts := n.post.receipts, parcels := n.post.parcels, waiters := n.post.waiters))
    ensures s.nextToken <= n.nextToken
  {
    if !Genuine(s, p) then s
    else if Retries(s, p) then
      var t := ReceiptFor(s, p.did).value;
      s.(post := s.post.(receipts := s.post.receipts[t := s.post.receipts[t].(retryable := false)]))
    else HandOver(Decide(s, p), p.waiter)
  }

  // ---- Completing, retrying, holding, dropping ----

  function RemoveReceipt(s: State, t: Token): (n: State)
    ensures n == s.(post := s.post.(receipts := n.post.receipts), stop := n.stop)
    ensures OnlyReceipts(s.stop, n.stop)
  {
    s.(post := s.post.(receipts := s.post.receipts - {t}), stop := UntrackReceipt(s.stop, t))
  }

  function Note(attention: map<Id, set<nat>>, d: Durable, id: Id, wake: nat): map<Id, set<nat>> {
    if id == NO_ID || wake == 0 || id !in d then attention
    else attention[id := (if id in attention then attention[id] else {}) + {wake}]
  }

  /** Committing acknowledges the head and notes the owner's wake; abandoning gives a held head back. */
  function CompleteDelivery(s: State, t: Token, committed: bool, wake: nat, storeOk: bool): (n: State)
    ensures n == s.(post := s.post.(receipts := n.post.receipts, claims := n.post.claims, attention := n.post.attention),
                    stop := n.stop,
                    store := s.store.(journal := n.store.journal, durable := n.store.durable))
    ensures OnlyReceipts(s.stop, n.stop)
  {
    if t !in s.post.receipts then s
    else
      var r := s.post.receipts[t];
      var removed := RemoveReceipt(s, t);
      if !committed then
        s.(post := s.post.(receipts := s.post.receipts - {t},
           claims := if r.held != 0 && r.did !in s.post.claims then RestoreHeld(s, r.held) else s.post.claims), stop := UntrackReceipt(s.stop, t))
      else if r.delegate !in s.store.durable || s.store.durable[r.delegate].queue == [] || s.store.durable[r.delegate].queue[0].did != r.did then removed
      else
        match Append(s, [DeliveryAcknowledged(r.delegate, r.did)], storeOk)
        case None => s.(post := s.post.(receipts := s.post.receipts[t := r.(retryable := true)]))
        case Some(next) =>
          s.(store := s.store.(journal := next.store.journal, durable := next.store.durable), post := s.post.(receipts := s.post.receipts - {t},
             attention := if r.inline then s.post.attention else Note(s.post.attention, s.store.durable, r.owner, wake)), stop := UntrackReceipt(s.stop, t))
  }

  function LeaveForRetry(s: State, t: Token): (n: State)
    ensures n == s.(post := s.post.(receipts := n.post.receipts))
  {
    if t !in s.post.receipts then s else s.(post := s.post.(receipts := s.post.receipts[t := s.post.receipts[t].(retryable := true)]))
  }

  /** A receiver mid-turn keeps a plan for its next round, unless the plan answers a waiter of that very turn. */
  function HoldClaim(s: State, p: Plan): (n: State)
    ensures n == s.(post := s.post.(parcels := n.post.parcels))
  {
    if p.waiter != 0 || !Genuine(s, p) || !ClaimIs(s, p.did, p.claim) || p.claim !in s.post.parcels then s
    else s.(post := s.post.(parcels := s.post.parcels[p.claim := s.post.parcels[p.claim].(held := true)]))
  }

  /** Dropping a claim answers the waiter it holds. */
  function DropClaim(s: State, p: Plan): (n: State)
    ensures n == s.(post := s.post.(claims := n.post.claims, waiters := n.post.waiters))
  {
    if !Genuine(s, p) || !ClaimIs(s, p.did, p.claim) || p.claim !in s.post.parcels then s
    else
      var w := s.post.parcels[p.claim].waiter;
      s.(post := s.post.(claims := s.post.claims - {p.did},
         waiters := if w in s.post.waiters && (s.post.waiters[w].Claimed? || s.post.waiters[w].Owed?) then s.post.waiters[w := Answered] else s.post.waiters))
  }

  // ---- Waiters ----

  function WithdrawWaiter(s: State, w: Token): (n: State)
    ensures n == s.(runs := s.runs.(live := n.runs.live), post := s.post.(waiters := n.post.waiters))
    ensures SameSteers(s.runs.live, n.runs.live) && EvidenceGrows(s.runs.live, n.runs.live)
    ensures SameLeases(s.runs.live, n.runs.live)
  {
    if w !in s.post.waiters || !s.post.waiters[w].Registered? then s
    else
      var id, g := s.post.waiters[w].id, s.post.waiters[w].generation;
      if id !in s.runs.live || g !in s.runs.live[id].waiters || s.runs.live[id].waiters[g] != w then s
      else s.(runs := s.runs.(live := Unregister(s.runs.live, id, g)), post := s.post.(waiters := s.post.waiters[w := Withdrawn]))
  }

  /** A stop that closed the start takes its waiter back for the send itself to answer. */
  function DropStoppedWaiter(s: State, l: Lease): (n: State)
    ensures n == s.(runs := s.runs.(live := n.runs.live), post := s.post.(waiters := n.post.waiters))
    ensures SameSteers(s.runs.live, n.runs.live) && EvidenceGrows(s.runs.live, n.runs.live)
    ensures SameLeases(s.runs.live, n.runs.live)
  {
    if l.id !in s.store.durable || s.store.durable[l.id].pendingStop == 0 || l.id !in s.runs.live || l.generation !in s.runs.live[l.id].waiters then s
    else
      var w := s.runs.live[l.id].waiters[l.generation];
      s.(runs := s.runs.(live := Unregister(s.runs.live, l.id, l.generation)),
         post := s.post.(waiters := Moved(s.post.waiters, w, Withdrawn)))
  }

  function AnswerWaiter(s: State, w: Token): (n: State)
    ensures n == s.(post := s.post.(waiters := n.post.waiters))
  {
    if w in s.post.waiters && s.post.waiters[w].Owed? then s.(post := s.post.(waiters := s.post.waiters[w := Answered])) else s
  }

  // ---- Steps ----

  datatype DeliverStep =
    | DoPostUpdate(lease: Lease, note: Packet, storeOk: bool)
    | DoPlanDelivery(target: Id, did: DeliveryId)
    | DoBeginDelivery(plan: Plan)
    | DoCompleteDelivery(token: Token, committed: bool, wake: nat, storeOk: bool)
    | DoLeaveForRetry(token: Token)
    | DoHoldClaim(plan: Plan)
    | DoDropClaim(plan: Plan)
    | DoWithdrawWaiter(waiter: Token)
    | DoDropStoppedWaiter(lease: Lease)
    | DoAnswerWaiter(waiter: Token)

  ghost function NextDeliver(s: State, step: DeliverStep): State {
    match step
    case DoPostUpdate(l, n, ok) => PostUpdate(s, l, n, ok)
    case DoPlanDelivery(id, did) => PlanDelivery(s, id, did)
    case DoBeginDelivery(p) => BeginDelivery(s, p)
    case DoCompleteDelivery(t, c, w, ok) => CompleteDelivery(s, t, c, w, ok)
    case DoLeaveForRetry(t) => LeaveForRetry(s, t)
    case DoHoldClaim(p) => HoldClaim(s, p)
    case DoDropClaim(p) => DropClaim(s, p)
    case DoWithdrawWaiter(w) => WithdrawWaiter(s, w)
    case DoDropStoppedWaiter(l) => DropStoppedWaiter(s, l)
    case DoAnswerWaiter(w) => AnswerWaiter(s, w)
  }
}
