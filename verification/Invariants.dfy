/** What every reachable controller state satisfies. */
module Invariants {
  import opened Types
  import opened Tree
  import opened Journal
  import opened JournalLaws
  import opened State
  import opened Effects

  /** A bound runtime serves its delegate's open generation. */
  ghost predicate BindInv(live: map<Id, Live>, d: Durable) {
    forall i | LeaseAt(live, i).Some? :: LeaseAt(live, i).value.id == i && OpenRun(d, i, LeaseAt(live, i).value.generation)
  }

  predicate ReservationOk(r: Reservation, d: Durable) {
    if r.create then r.id !in d && r.id != NO_ID && r.trigger == InitialTrigger && (r.parent == NO_ID || r.parent in d)
    else r.id in d
  }

  /** A creation names a fresh id, a restart a known one, and no two reservations share one. */
  ghost predicate ResInv(res: map<Token, Reservation>, d: Durable) {
    && (forall t | t in res :: ReservationOk(res[t], d))
    && (forall t, u | t in res && u in res && t != u :: res[t].id != res[u].id)
  }

  /** A settlement claim belongs to a bound generation. */
  ghost predicate SettleInv(settlements: map<Token, SettlementClaim>, live: map<Id, Live>) {
    forall t | t in settlements :: LeaseAt(live, settlements[t].lease.id) == Some(settlements[t].lease)
  }

  // ---- Tokens ----

  ghost predicate Minted(tokens: set<Token>, n: Token) {
    forall t | t in tokens :: 0 < t <= n
  }

  ghost predicate TokInv(s: State) {
    && Minted(s.runs.reservations.Keys, s.nextToken) && Minted(s.runs.inputs.Keys, s.nextToken) && Minted(s.tables.steering.Keys, s.nextToken)
    && Minted(s.tables.models.Keys, s.nextToken) && Minted(s.tables.settlements.Keys, s.nextToken) && Minted(s.tables.work.Keys, s.nextToken)
    && Minted(s.tables.quiets.Keys, s.nextToken) && Minted(s.tables.enqueues.Keys, s.nextToken) && Minted(s.tables.deliveries.Keys, s.nextToken)
    && Minted(s.post.receipts.Keys, s.nextToken) && Minted(s.post.parcels.Keys, s.nextToken) && Minted(s.post.waiters.Keys, s.nextToken)
    && Minted(s.guards.reclamations.Keys, s.nextToken)
  }

  // ---- The pending stop ----

  /** The pending stop and the durable marks name the same members. */
  ghost predicate StopShape(stop: Option<StopState>, d: Durable) {
    match stop
    case None => forall i | i in d :: d[i].pendingStop == 0
    case Some(st) =>
      && st.seqNo != 0 && st.target in st.members && st.members == StopMembers(d, st.seqNo)
      && forall i | i in d && d[i].pendingStop != 0 :: i in st.members
  }

  ghost predicate ActiveExact(stop: Option<StopState>, live: map<Id, Live>) {
    stop.Some? ==> stop.value.active == ActiveIn(live, stop.value.members)
  }

  ghost predicate StartsExact(stop: Option<StopState>, t: map<Token, Reservation>) {
    stop.Some? ==> stop.value.starts == StartsIn(t, stop.value.members)
  }

  ghost predicate WorkExact(stop: Option<StopState>, t: map<Token, Work>) {
    stop.Some? ==> stop.value.work == WorkIn(t, stop.value.members)
  }

  ghost predicate ReceiptsExact(stop: Option<StopState>, t: map<Token, Receipt>) {
    stop.Some? ==> stop.value.receipts == ReceiptsIn(t, stop.value.members)
  }

  ghost predicate QuietsExact(stop: Option<StopState>, t: map<Token, Lease>) {
    stop.Some? ==> stop.value.quiets == QuietsIn(t, stop.value.members)
  }

  ghost predicate SteeringExact(stop: Option<StopState>, t: map<Token, SteerClaim>) {
    stop.Some? ==> stop.value.steering == SteeringIn(t, stop.value.members)
  }

  ghost predicate ModelsExact(stop: Option<StopState>, t: map<Token, ModelClaim>) {
    stop.Some? ==> stop.value.models == ModelsIn(t, stop.value.members)
  }

  ghost predicate SettlementsExact(stop: Option<StopState>, t: map<Token, SettlementClaim>) {
    stop.Some? ==> stop.value.settlements == SettlementsIn(t, stop.value.members)
  }

  ghost predicate EnqueuesExact(stop: Option<StopState>, t: map<Token, Watch>) {
    stop.Some? ==> stop.value.enqueues == WatchesIn(t, stop.value.members)
  }

  ghost predicate WatchesExact(stop: Option<StopState>, t: map<Token, Watch>) {
    stop.Some? ==> stop.value.deliveries == WatchesIn(t, stop.value.members)
  }

  /** A stop leaves no delivery claim that touches a member. */
  ghost predicate NoStoppedClaim(stop: Option<StopState>, claims: map<DeliveryId, Token>, parcels: map<Token, Parcel>) {
    stop.Some? ==> ClaimsIn(claims, parcels, stop.value.members) == {}
  }

  /** Each tracked set is exactly the live entries that touch a member. */
  ghost predicate TrackInv(s: State) {
    && ActiveExact(s.stop, s.runs.live) && StartsExact(s.stop, s.runs.reservations) && WorkExact(s.stop, s.tables.work)
    && ReceiptsExact(s.stop, s.post.receipts) && QuietsExact(s.stop, s.tables.quiets) && SteeringExact(s.stop, s.tables.steering)
    && ModelsExact(s.stop, s.tables.models) && SettlementsExact(s.stop, s.tables.settlements)
    && EnqueuesExact(s.stop, s.tables.enqueues) && WatchesExact(s.stop, s.tables.deliveries)
  }

  /** Every delegate beneath the target belongs to the stop. */
  ghost predicate FenceWhole(s: State) {
    s.stop.Some? ==> forall i | i in s.store.durable && Under(ShapeOf(s.store.durable), i, s.stop.value.target) :: i in s.stop.value.members
  }

  /** Every open run has a lease, or waits to be ended as lost. */
  ghost predicate Accounted(runs: Runs, d: Durable) {
    forall i | i in d && d[i].open :: LeaseAt(runs.live, i).Some? || Lease(i, d[i].generation) in runs.lost
  }

  ghost predicate Antichain(ids: set<Id>, d: Durable) {
    forall r, q | r in ids && q in ids && r != q :: !Under(ShapeOf(d), r, q)
  }

  lemma InSubtree(d: Durable, i: Id, target: Id)
    ensures Under(ShapeOf(d), i, target) <==> i in Subtree(ShapeOf(d), target)
  {
    if Under(ShapeOf(d), i, target) && i != target { assert i in ShapeOf(d); }
  }

  // ---- Capacity ----

  function Slots(res: map<Token, Reservation>, drive: bool): set<Token> {
    set t | t in res && (res[t].trigger == AttentionTrigger) == drive
  }

  function Bound(live: map<Id, Live>, d: Durable, drive: bool): set<Id> {
    set i | i in live && LeaseAt(live, i).Some? && i in d && (d[i].trigger == AttentionTrigger) == drive
  }

  function InUse(res: map<Token, Reservation>, live: map<Id, Live>, d: Durable, drive: bool): nat {
    |Slots(res, drive)| + |Bound(live, d, drive)|
  }

  /** Each counter is the reservations and bindings of its kind, and within its limit. */
  ghost predicate CapInv(s: State) {
    && s.runs.turns == InUse(s.runs.reservations, s.runs.live, s.store.durable, false) && s.runs.turns <= s.limits.turns
    && s.runs.drives == InUse(s.runs.reservations, s.runs.live, s.store.durable, true) && s.runs.drives <= s.limits.drives
  }

  // ---- Together ----

  ghost predicate CoreInv(s: State) {
    && JournalInv(s.store.journal, s.store.durable) && BindInv(s.runs.live, s.store.durable) && ResInv(s.runs.reservations, s.store.durable)
    && SettleInv(s.tables.settlements, s.runs.live) && IndexExact(s.store.children, ShapeOf(s.store.durable)) && TokInv(s)
    && StopShape(s.stop, s.store.durable) && TrackInv(s) && CapInv(s)
  }

  // ---- Steps that move no lease ----

  lemma SameActive(a: map<Id, Live>, b: map<Id, Live>, members: set<Id>)
    requires SameLeases(a, b)
    ensures ActiveIn(a, members) == ActiveIn(b, members)
  {
  }

  lemma SameBound(a: map<Id, Live>, b: map<Id, Live>, d: Durable, d': Durable, drive: bool)
    requires SameLeases(a, b) && SameWork(d, d')
    ensures Bound(a, d, drive) == Bound(b, d', drive)
  {
    forall i ensures i in Bound(a, d, drive) <==> i in Bound(b, d', drive) {
      assert LeaseAt(a, i) == LeaseAt(b, i);
    }
  }

  lemma SameBindings(a: map<Id, Live>, b: map<Id, Live>, d: Durable, d': Durable)
    requires SameLeases(a, b) && SameWork(d, d') && BindInv(a, d)
    ensures BindInv(b, d')
  {
    forall i | LeaseAt(b, i).Some?
      ensures LeaseAt(b, i).value.id == i && OpenRun(d', i, LeaseAt(b, i).value.generation)
    {
      assert LeaseAt(a, i).Some?;
    }
  }

  lemma SameReservations(res: map<Token, Reservation>, d: Durable, d': Durable)
    requires ResInv(res, d) && d'.Keys == d.Keys
    ensures ResInv(res, d')
  {
    forall t | t in res ensures ReservationOk(res[t], d') {
      assert ReservationOk(res[t], d);
    }
  }

  lemma SameStopShape(stop: Option<StopState>, stop': Option<StopState>, d: Durable, d': Durable)
    requires StopShape(stop, d) && SameRuns(d, d') && stop.Some? == stop'.Some?
    requires stop.Some? ==> stop'.value.seqNo == stop.value.seqNo && stop'.value.target == stop.value.target && stop'.value.members == stop.value.members
    ensures StopShape(stop', d')
  {
  }

  lemma SameSettlements(table: map<Token, SettlementClaim>, a: map<Id, Live>, b: map<Id, Live>)
    requires SettleInv(table, a) && SameLeases(a, b)
    ensures SettleInv(table, b)
  {
  }

  /** A step that moves no lease, ends no run and makes no reservation keeps what it does not touch. */
  lemma SteadyStep(s: State, n: State)
    requires CoreInv(s) && JournalInv(n.store.journal, n.store.durable)
    requires SameLeases(s.runs.live, n.runs.live) && SameRuns(s.store.durable, n.store.durable)
    requires n.runs == s.runs.(live := n.runs.live, inputs := n.runs.inputs, lost := n.runs.lost)
    requires n.store.children == s.store.children && n.limits == s.limits && n.tables.settlements == s.tables.settlements
    requires n.stop.Some? == s.stop.Some?
    requires s.stop.Some? ==> n.stop.value.seqNo == s.stop.value.seqNo && n.stop.value.target == s.stop.value.target && n.stop.value.members == s.stop.value.members
    requires TokInv(n) && TrackInv(n)
    ensures CoreInv(n)
  {
    hide TokInv, TrackInv, JournalInv, WellFormed, SameLeases, BindInv, ResInv, StopShape, SettleInv;
    SameBindings(s.runs.live, n.runs.live, s.store.durable, n.store.durable);
    SameReservations(s.runs.reservations, s.store.durable, n.store.durable);
    SameStopShape(s.stop, n.stop, s.store.durable, n.store.durable);
    SameSettlements(s.tables.settlements, s.runs.live, n.runs.live);
    SameBound(s.runs.live, n.runs.live, s.store.durable, n.store.durable, false);
    SameBound(s.runs.live, n.runs.live, s.store.durable, n.store.durable, true);
  }

  lemma SameRunsReflexive(d: Durable)
    ensures SameRuns(d, d)
  {
  }
}
