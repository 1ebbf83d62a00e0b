/** Reserving, committing and failing a start keeps the core invariants. */
module StartKept {
  import opened Types
  import opened Tree
  import opened Journal
  import opened JournalLaws
  import opened State
  import opened Settle
  import opened Finishing
  import opened Starting
  import opened Effects
  import opened Invariants
  import opened FinishKept

  // ---- Reservations ----

  lemma SlotAdded(res: map<Token, Reservation>, t: Token, r: Reservation, drive: bool)
    requires t !in res
    ensures |Slots(res[t := r], drive)| == |Slots(res, drive)| + (if (r.trigger == AttentionTrigger) == drive then 1 else 0)
  {
    assert Slots(res[t := r], drive) == Slots(res, drive) + (if (r.trigger == AttentionTrigger) == drive then {t} else {});
  }

  lemma SlotRemoved(res: map<Token, Reservation>, t: Token, drive: bool)
    requires t in res
    ensures |Slots(res, drive)| == |Slots(res - {t}, drive)| + (if (res[t].trigger == AttentionTrigger) == drive then 1 else 0)
  {
    assert Slots(res, drive) == Slots(res - {t}, drive) + (if (res[t].trigger == AttentionTrigger) == drive then {t} else {});
  }

  lemma StartAdded(stop: Option<StopState>, res: map<Token, Reservation>, t: Token, r: Reservation)
    requires StartsExact(stop, res) && t !in res && (stop.Some? ==> r.id !in stop.value.members)
    ensures StartsExact(stop, res[t := r])
  {
  }

  lemma StartRemoved(stop: Option<StopState>, res: map<Token, Reservation>, t: Token)
    requires StartsExact(stop, res)
    ensures StartsExact(UntrackStart(stop, t), res - {t})
  {
  }

  lemma ReservationAdded(res: map<Token, Reservation>, d: Durable, t: Token, r: Reservation)
    requires ResInv(res, d) && ReservationOk(r, d) && forall u | u in res :: res[u].id != r.id
    ensures ResInv(res[t := r], d)
  {
  }

  lemma ReserveKeepsCore(s: State, r: Reservation)
    requires CoreInv(s) && ReservationOk(r, s.store.durable) && !HasReservation(s, r.id) && !StopCovers(s, r.id)
    ensures CoreInv(Reserve(s, r))
  {
    hide JournalInv, BindInv, ResInv, SettleInv, IndexExact, StopShape, ReservationOk, Slots, Bound, ShapeOf,
         ActiveIn, StartsIn, WorkIn, ReceiptsIn, QuietsIn, SteeringIn, ModelsIn, SettlementsIn, WatchesIn;
    var t := s.nextToken + 1;
    assert t !in s.runs.reservations;
    SlotAdded(s.runs.reservations, t, r, false);
    SlotAdded(s.runs.reservations, t, r, true);
    StartAdded(s.stop, s.runs.reservations, t, r);
    ReservationAdded(s.runs.reservations, s.store.durable, t, r);
  }

  lemma UnmarkedIsOutside(s: State, id: Id)
    requires StopShape(s.stop, s.store.durable) && (id in s.store.durable ==> s.store.durable[id].pendingStop == 0)
    ensures !StopCovers(s, id)
  {
  }

  lemma ReserveCreateKeepsCore(s: State, actor: Option<Lease>, newId: Id)
    requires CoreInv(s)
    ensures CoreInv(ReserveCreate(s, actor, newId))
  {
    hide CoreInv, Reserve, LaneCovers, HasReservation, Fenced, Reclaimed;
    if ReserveCreate(s, actor, newId) != s {
      UnmarkedOf(s, newId);
      ReserveKeepsCore(s, Reservation(newId, 1, InitialTrigger, true, if actor.Some? then actor.value.id else NO_ID, 0, 0));
    }
  }

  lemma UnmarkedOf(s: State, id: Id)
    requires CoreInv(s) && (id in s.store.durable ==> s.store.durable[id].pendingStop == 0)
    ensures !StopCovers(s, id)
  {
    hide JournalInv, BindInv, ResInv, SettleInv, IndexExact, TrackInv, TokInv, CapInv;
    UnmarkedIsOutside(s, id);
  }

  lemma ReserveStartKeepsCore(s: State, actor: Option<Lease>, id: Id)
    requires CoreInv(s)
    ensures CoreInv(ReserveStart(s, actor, id))
  {
    hide CoreInv, Reserve, LaneCovers, HasReservation, Admitted, Reclaimed, Authorized;
    if ReserveStart(s, actor, id) != s {
      UnmarkedOf(s, id);
      ReserveKeepsCore(s, Reservation(id, s.store.durable[id].generation + 1, OwnerInput, false, s.store.durable[id].parent, 0, 0));
    }
  }

  lemma ReserveAttentionKeepsCore(s: State, id: Id, runtime: Runtime, wake: nat)
    requires CoreInv(s)
    ensures CoreInv(ReserveAttention(s, id, runtime, wake))
  {
    hide CoreInv, Reserve, LaneCovers, HasReservation, Fenced, Reclaimed, DeliveryWork;
    if ReserveAttention(s, id, runtime, wake) != s {
      UnmarkedOf(s, id);
      ReserveKeepsCore(s, Reservation(id, s.store.durable[id].generation + 1, AttentionTrigger, false, s.store.durable[id].parent, runtime, 0));
    }
  }

  lemma ReserveOwedKeepsCore(s: State, id: Id, wake: nat, generation: nat)
    requires CoreInv(s)
    ensures CoreInv(ReserveOwedAttention(s, id, wake, generation))
  {
    hide CoreInv, Reserve, LaneCovers, HasReservation, Fenced, Reclaimed, DeliveryWork;
    if ReserveOwedAttention(s, id, wake, generation) != s {
      UnmarkedOf(s, id);
      ReserveKeepsCore(s, Reservation(id, generation, AttentionTrigger, false, s.store.durable[id].parent, 0, 0));
    }
  }

  lemma ReservationRemoved(res: map<Token, Reservation>, d: Durable, t: Token)
    requires ResInv(res, d)
    ensures ResInv(res - {t}, d)
  {
  }

  lemma ReleaseReservationKeepsCore(s: State, t: Token)
    requires CoreInv(s)
    ensures CoreInv(ReleaseReservation(s, t))
  {
    hide JournalInv, BindInv, ResInv, SettleInv, IndexExact, StopShape, Slots, Bound, ShapeOf, UntrackStart,
         ActiveIn, StartsExact, WorkIn, ReceiptsIn, QuietsIn, SteeringIn, ModelsIn, SettlementsIn, WatchesIn;
    if t in s.runs.reservations {
      SlotRemoved(s.runs.reservations, t, false);
      SlotRemoved(s.runs.reservations, t, true);
      StartRemoved(s.stop, s.runs.reservations, t);
      ReservationRemoved(s.runs.reservations, s.store.durable, t);
      SameRunsReflexive(s.store.durable);
      SameStopShape(s.stop, ReleaseReservation(s, t).stop, s.store.durable, s.store.durable);
    }
  }

  lemma WaiterSet(res: map<Token, Reservation>, t: Token, w: Token, d: Durable, stop: Option<StopState>, drive: bool)
    requires t in res && ResInv(res, d)
    ensures var res' := res[t := res[t].(waiter := w)];
            ResInv(res', d) && (StartsExact(stop, res) ==> StartsExact(stop, res')) && Slots(res', drive) == Slots(res, drive)
  {
    var res' := res[t := res[t].(waiter := w)];
    forall u | u in res' ensures ReservationOk(res'[u], d) { assert ReservationOk(res[u], d); }
  }

  lemma RegisterWaiterKeepsCore(s: State, t: Token)
    requires CoreInv(s)
    ensures CoreInv(RegisterWaiter(s, t))
  {
    hide JournalInv, BindInv, ResInv, SettleInv, IndexExact, StopShape, Slots, Bound, ShapeOf,
         ActiveIn, StartsIn, WorkIn, ReceiptsIn, QuietsIn, SteeringIn, ModelsIn, SettlementsIn, WatchesIn;
    if t in s.runs.reservations {
      WaiterSet(s.runs.reservations, t, s.nextToken + 1, s.store.durable, s.stop, false);
      WaiterSet(s.runs.reservations, t, s.nextToken + 1, s.store.durable, s.stop, true);
    }
  }

  // ---- Commit ----

  lemma OpenedLeases(live: map<Id, Live>, live': map<Id, Live>, r: Reservation, v: Live)
    requires live' == live[r.id := StartedLive(v, r)]
    ensures forall i :: LeaseAt(live', i) == if i == r.id then Some(Lease(r.id, r.generation)) else LeaseAt(live, i)
  {
    assert live'[r.id] == StartedLive(v, r);
  }

  lemma OpenedWasUnbound(live: map<Id, Live>, d: Durable, d': Durable, r: Reservation, born: nat)
    requires BindInv(live, d) && RunOpened(d, d', r, born)
    ensures LeaseAt(live, r.id).None?
  {
  }

  lemma OpenedBindings(live: map<Id, Live>, live': map<Id, Live>, d: Durable, d': Durable, r: Reservation, born: nat)
    requires BindInv(live, d) && RunOpened(d, d', r, born)
    requires forall i :: LeaseAt(live', i) == if i == r.id then Some(Lease(r.id, r.generation)) else LeaseAt(live, i)
    ensures BindInv(live', d')
  {
  }

  lemma OpenedBoundIs(live: map<Id, Live>, live': map<Id, Live>, d: Durable, d': Durable, r: Reservation, born: nat, drive: bool)
    requires RunOpened(d, d', r, born) && LeaseAt(live, r.id).None?
    requires forall i :: LeaseAt(live', i) == if i == r.id then Some(Lease(r.id, r.generation)) else LeaseAt(live, i)
    ensures Bound(live', d', drive) == Bound(live, d, drive) + (if (r.trigger == AttentionTrigger) == drive then {r.id} else {})
    ensures r.id !in Bound(live, d, drive)
  {
    hide ShapeOf;
    forall i ensures i in Bound(live', d', drive) <==> i in Bound(live, d, drive) + (if (r.trigger == AttentionTrigger) == drive then {r.id} else {}) {
      assert LeaseAt(live', i) == if i == r.id then Some(Lease(r.id, r.generation)) else LeaseAt(live, i);
      BoundIs(live, d, drive, i);
      BoundIs(live', d', drive, i);
    }
  }

  lemma BoundIs(live: map<Id, Live>, d: Durable, drive: bool, i: Id)
    ensures i in Bound(live, d, drive) <==> LeaseAt(live, i).Some? && i in d && (d[i].trigger == AttentionTrigger) == drive
  {
  }

  lemma OpenedBound(live: map<Id, Live>, live': map<Id, Live>, d: Durable, d': Durable, r: Reservation, born: nat, drive: bool)
    requires RunOpened(d, d', r, born) && LeaseAt(live, r.id).None?
    requires forall i :: LeaseAt(live', i) == if i == r.id then Some(Lease(r.id, r.generation)) else LeaseAt(live, i)
    ensures |Bound(live', d', drive)| == |Bound(live, d, drive)| + (if (r.trigger == AttentionTrigger) == drive then 1 else 0)
  {
    var added := if (r.trigger == AttentionTrigger) == drive then {r.id} else {};
    OpenedBoundIs(live, live', d, d', r, born, drive);
    hide Bound;
    assert r.id !in Bound(live, d, drive);
  }

  lemma OpenedActive(live: map<Id, Live>, live': map<Id, Live>, r: Reservation, members: set<Id>)
    requires r.id !in members
    requires forall i :: LeaseAt(live', i) == if i == r.id then Some(Lease(r.id, r.generation)) else LeaseAt(live, i)
    ensures ActiveIn(live', members) == ActiveIn(live, members)
  {
  }

  lemma OpenedReservations(res: map<Token, Reservation>, t: Token, d: Durable, d': Durable, born: nat)
    requires ResInv(res, d) && t in res && RunOpened(d, d', res[t], born)
    ensures ResInv(res - {t}, d')
  {
    forall u | u in res && u != t ensures ReservationOk(res[u], d') {
      assert ReservationOk(res[u], d);
    }
  }

  lemma OpenedIndex(index: Index, d: Durable, d': Durable, r: Reservation, born: nat)
    requires IndexExact(index, ShapeOf(d)) && RunOpened(d, d', r, born)
    ensures IndexExact(if r.create then AddChildEdge(index, r.id, r.parent) else index, ShapeOf(d'))
  {
    hide IndexExact;
    if r.create {
      AddChildEdgeKeepsIndexExact(index, ShapeOf(d), r.id, Node(r.parent, born));
    }
  }

  lemma OpenedStopShape(stop: Option<StopState>, t: Token, d: Durable, d': Durable, r: Reservation, born: nat)
    requires StopShape(stop, d) && RunOpened(d, d', r, born)
    ensures StopShape(UntrackStart(stop, t), d')
  {
  }

  lemma OpenedSettlements(table: map<Token, SettlementClaim>, live: map<Id, Live>, live': map<Id, Live>, r: Reservation)
    requires SettleInv(table, live) && LeaseAt(live, r.id).None?
    requires forall i :: LeaseAt(live', i) == if i == r.id then Some(Lease(r.id, r.generation)) else LeaseAt(live, i)
    ensures SettleInv(table, live')
  {
  }

  /** The commit lands: `n` is the state after it. */
  ghost predicate Committed(s: State, n: State, t: Token) {
    && t in s.runs.reservations
    && var r := s.runs.reservations[t];
    && n.runs == s.runs.(reservations := s.runs.reservations - {t},
                         live := s.runs.live[r.id := StartedLive(if r.id in s.runs.live then s.runs.live[r.id] else NO_LIVE, r)])
    && n.stop == UntrackStart(s.stop, t)
    && n.store.children == (if r.create then AddChildEdge(s.store.children, r.id, r.parent) else s.store.children)
    && n.tables == s.tables && n.post.receipts == s.post.receipts && n.post.parcels == s.post.parcels
    && n.post.waiters.Keys == s.post.waiters.Keys && n.guards == s.guards && n.nextToken == s.nextToken && n.limits == s.limits
    && JournalInv(n.store.journal, n.store.durable)
    && RunOpened(s.store.durable, n.store.durable, r, |s.store.journal| + 1)
    && !StopCovers(s, r.id)
  }

  lemma CommittedTracks(s: State, n: State, t: Token)
    requires Committed(s, n, t) && TrackInv(s) && TokInv(s)
    ensures TrackInv(n) && TokInv(n)
  {
    hide JournalInv, RunOpened, StartedLive, ActiveIn, StartsExact, WorkIn, ReceiptsIn, QuietsIn, SteeringIn, ModelsIn, SettlementsIn, WatchesIn;
    var r := s.runs.reservations[t];
    OpenedLeases(s.runs.live, n.runs.live, r, if r.id in s.runs.live then s.runs.live[r.id] else NO_LIVE);
    if s.stop.Some? { OpenedActive(s.runs.live, n.runs.live, r, s.stop.value.members); }
    StartRemoved(s.stop, s.runs.reservations, t);
  }

  lemma CommittedKeepsCore(s: State, n: State, t: Token)
    requires Committed(s, n, t) && CoreInv(s)
    ensures CoreInv(n)
  {
    hide JournalInv, RunOpened, StartedLive, BindInv, ResInv, SettleInv, IndexExact, StopShape, TrackInv, TokInv, Slots, Bound,
         UntrackStart, AddChildEdge, ShapeOf;
    var r := s.runs.reservations[t];
    var d, d', born := s.store.durable, n.store.durable, |s.store.journal| + 1;
    CommittedTracks(s, n, t);
    OpenedLeases(s.runs.live, n.runs.live, r, if r.id in s.runs.live then s.runs.live[r.id] else NO_LIVE);
    OpenedWasUnbound(s.runs.live, d, d', r, born);
    OpenedBindings(s.runs.live, n.runs.live, d, d', r, born);
    OpenedReservations(s.runs.reservations, t, d, d', born);
    OpenedSettlements(s.tables.settlements, s.runs.live, n.runs.live, r);
    OpenedIndex(s.store.children, d, d', r, born);
    OpenedStopShape(s.stop, t, d, d', r, born);
    OpenedBound(s.runs.live, n.runs.live, d, d', r, born, false);
    OpenedBound(s.runs.live, n.runs.live, d, d', r, born, true);
    SlotRemoved(s.runs.reservations, t, false);
    SlotRemoved(s.runs.reservations, t, true);
  }

  lemma CommitLands(s: State, t: Token, cancelled: bool, pending: set<nat>, storeOk: bool)
    requires JournalInv(s.store.journal, s.store.durable) && t in s.runs.reservations
    requires !CommitRefused(s, s.runs.reservations[t], cancelled) && Append(s, StartEvents(s.runs.reservations[t]), storeOk).Some?
    ensures Committed(s, CommitStart(s, t, cancelled, pending, storeOk), t)
  {
    hide StartEvents, RunOpened, StartedLive, ApplyBatch, Fold, LaneCovers, Fenced, DeliveryWork, AddChildEdge, UntrackStart;
    var r := s.runs.reservations[t];
    AppendEffect(s, StartEvents(r), storeOk);
    StartEffect(s.store.durable, |s.store.journal|, r, Append(s, StartEvents(r), storeOk).value.store.durable);
  }

  lemma CommitStartKeepsCore(s: State, t: Token, cancelled: bool, pending: set<nat>, storeOk: bool)
    requires CoreInv(s)
    ensures CoreInv(CommitStart(s, t, cancelled, pending, storeOk))
  {
    hide BindInv, ResInv, SettleInv, IndexExact, StopShape, TrackInv, TokInv, CapInv, WellFormed, Fold, Committed, CommitRefused,
         StartEvents, ReleaseReservation, StartedLive, AddChildEdge, UntrackStart, Append;
    if t in s.runs.reservations {
      var r := s.runs.reservations[t];
      ReleaseReservationKeepsCore(s, t);
      if !CommitRefused(s, r, cancelled) && Append(s, StartEvents(r), storeOk).Some? {
        CommitLands(s, t, cancelled, pending, storeOk);
        CommittedKeepsCore(s, CommitStart(s, t, cancelled, pending, storeOk), t);
      }
    }
  }

  // ---- Attach, inputs and failures ----

  lemma InputStepTracks(s: State, n: State)
    requires TrackInv(s) && TokInv(s) && n == s.(runs := s.runs.(live := n.runs.live, inputs := n.runs.inputs), nextToken := n.nextToken)
    requires SameLeases(s.runs.live, n.runs.live) && s.nextToken <= n.nextToken && Minted(n.runs.inputs.Keys, n.nextToken)
    ensures TrackInv(n) && TokInv(n)
  {
    hide ActiveIn, StartsIn, WorkIn, ReceiptsIn, QuietsIn, SteeringIn, ModelsIn, SettlementsIn, WatchesIn, SameLeases;
    if s.stop.Some? { SameActive(s.runs.live, n.runs.live, s.stop.value.members); }
  }

  lemma InputStepKeepsCore(s: State, n: State)
    requires CoreInv(s) && n == s.(runs := s.runs.(live := n.runs.live, inputs := n.runs.inputs), nextToken := n.nextToken)
    requires SameLeases(s.runs.live, n.runs.live) && s.nextToken <= n.nextToken && Minted(n.runs.inputs.Keys, n.nextToken)
    ensures CoreInv(n)
  {
    hide TrackInv, TokInv, JournalInv, BindInv, ResInv, StopShape, SettleInv, CapInv, IndexExact, SameLeases, Minted;
    InputStepTracks(s, n);
    SameRunsReflexive(s.store.durable);
    SteadyStep(s, n);
  }

  lemma BeginStartInputMints(s: State, l: Lease)
    requires Minted(s.runs.inputs.Keys, s.nextToken)
    ensures Minted(BeginStartInput(s, l).runs.inputs.Keys, BeginStartInput(s, l).nextToken)
  {
  }

  lemma InputsMinted(s: State)
    requires CoreInv(s)
    ensures Minted(s.runs.inputs.Keys, s.nextToken)
  {
    hide JournalInv, BindInv, ResInv, SettleInv, IndexExact, StopShape, TrackInv, CapInv, Minted;
  }

  lemma BeginStartInputKeepsCore(s: State, l: Lease)
    requires CoreInv(s)
    ensures CoreInv(BeginStartInput(s, l))
  {
    hide CoreInv, Minted, BeginStartInput, SameLeases;
    InputsMinted(s);
    BeginStartInputMints(s, l);
    InputStepKeepsCore(s, BeginStartInput(s, l));
  }

  lemma CompleteStartInputKeepsCore(s: State, t: Token, committed: bool, failure: Finish, now: nat, storeOk: bool)
    requires CoreInv(s)
    ensures CoreInv(CompleteStartInput(s, t, committed, failure, now, storeOk))
  {
    hide CoreInv, FinishWith, FinishStopped, ClosingBatch, StartFailureEvents;
    if t in s.runs.inputs && ExactLease(s, s.runs.inputs[t]) && s.runs.live[s.runs.inputs[t].id].binding.value.input == t {
      var l := s.runs.inputs[t];
      var taken := Taken(s, t);
      TakenKeepsLease(s, t);
      InputsMinted(s);
      InputStepKeepsCore(s, taken);
      FinishStoppedKeepsCore(taken, l, None, now, storeOk, LatchRecovery);
      StartFailureClosing(l, failure, now, false);
      FinishWithKeepsCore(taken, l, StartFailureEvents(l, failure, now), storeOk, LatchRecovery);
      LiveStepKeepsCore(taken, taken.(runs := taken.runs.(live := Readied(taken.runs.live, l.id))));
    }
  }

  lemma FailCommittedKeepsCore(s: State, l: Lease, failure: Finish, close: bool, forClose: Runtime, now: nat, storeOk: bool)
    requires CoreInv(s)
    ensures CoreInv(FailCommitted(s, l, failure, close, forClose, now, storeOk))
  {
    hide CoreInv, FinishWith, FinishStopped, ClosingBatch, StartFailureEvents;
    if ExactLease(s, l) {
      FinishStoppedKeepsCore(s, l, None, now, storeOk, LatchRecovery);
      StartFailureClosing(l, failure, now, close);
      FinishWithKeepsCore(s, l, StartFailureEvents(l, failure, now) + (if close then [ResumabilityClosed(l.id)] else []), storeOk, LatchRecovery);
      var next := FinishStopped(s, l, None, now, storeOk, LatchRecovery);
      if l.id in next.runs.live && next.runs.live[l.id].binding.None? {
        LiveStepKeepsCore(next, next.(runs := next.runs.(live := Emptied(next.runs.live, l.id))));
      }
    }
  }

  lemma StartKeepsCore(s: State, x: StartStep)
    requires CoreInv(s)
    ensures CoreInv(NextStart(s, x))
  {
    hide CoreInv, ReserveCreate, ReserveStart, ReserveAttention, ReserveOwedAttention, RegisterWaiter, ReleaseReservation, CommitStart,
         AttachRuntime, AttachIdleRuntime, BeginStartInput, CompleteStartInput, FailCommitted, SameLeases;
    match x
    case DoReserveCreate(a, id) => ReserveCreateKeepsCore(s, a, id);
    case DoReserveStart(a, id) => ReserveStartKeepsCore(s, a, id);
    case DoReserveAttention(id, r, w) => ReserveAttentionKeepsCore(s, id, r, w);
    case DoReserveOwedAttention(id, w, g) => ReserveOwedKeepsCore(s, id, w, g);
    case DoRegisterWaiter(t) => RegisterWaiterKeepsCore(s, t);
    case DoAbortStart(t) => ReleaseReservationKeepsCore(s, t);
    case DoCommitStart(t, c, p, ok) => CommitStartKeepsCore(s, t, c, p, ok);
    case DoBeginStartInput(l) => BeginStartInputKeepsCore(s, l);
    case DoCompleteStartInput(t, c, f, now, ok) => CompleteStartInputKeepsCore(s, t, c, f, now, ok);
    case DoFailCommitted(l, f, c, r, now, ok) => FailCommittedKeepsCore(s, l, f, c, r, now, ok);
    case _ => LiveStepKeepsCore(s, NextStart(s, x));
  }
}
