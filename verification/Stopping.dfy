/** The subtree stop, its recovery and completion, a restart of the process, and the tree's close. */
module Stopping {
  import opened Types
  import opened Tree
  import opened Journal
  import opened State
  import opened Settle
  import opened Finishing
  import opened Delivering

  // ---- Requesting a stop ----

  /** Everything in flight that touches a member, as the request finds it. */
  function Snapshot(s: State, seqNo: nat, target: Id, members: set<Id>): StopState {
    StopState(seqNo, target, members,
      ActiveIn(s.runs.live, members), StartsIn(s.runs.reservations, members), WorkIn(s.tables.work, members), ReceiptsIn(s.post.receipts, members),
      QuietsIn(s.tables.quiets, members), SteeringIn(s.tables.steering, members), ModelsIn(s.tables.models, members),
      SettlementsIn(s.tables.settlements, members), WatchesIn(s.tables.enqueues, members), WatchesIn(s.tables.deliveries, members))
  }

  /** The waiters of the claims a stop deletes; they go to its cancel plan. */
  function WaitersIn(claims: map<DeliveryId, Token>, parcels: map<Token, Parcel>, members: set<Id>): set<Token> {
    set k | k in ClaimsIn(claims, parcels, members) :: parcels[claims[k]].waiter
  }

  function OweAll(waiters: map<Token, WaiterState>, owed: set<Token>): map<Token, WaiterState> {
    map w | w in waiters :: if w in owed && waiters[w].Claimed? then Owed else waiters[w]
  }

  /** An attention start being admitted inside the subtree blocks a stop until it settles. */
  predicate AttentionBlocks(s: State, members: set<Id>) {
    exists t | t in s.runs.reservations :: s.runs.reservations[t].trigger == AttentionTrigger && s.runs.reservations[t].id in members
  }

  function StopSubtree(s: State, actor: Option<Lease>, target: Id, allowClosing: bool, storeOk: bool): (n: State)
    ensures n == s.(store := s.store.(journal := n.store.journal, durable := n.store.durable),
                    stop := n.stop,
                    post := s.post.(claims := n.post.claims, waiters := n.post.waiters))
  {
    if s.stop.Some? || (s.closing && !allowClosing) || !Authorized(s, actor, target) then s
    else
      var members := Subtree(ShapeOf(s.store.durable), target);
      if AttentionBlocks(s, members) then s
      else
        match Append(s, [StopRequested(target)], storeOk)
        case None => s
        case Some(next) =>
          s.(store := s.store.(journal := next.store.journal, durable := next.store.durable),
                stop := Some(Snapshot(s, |s.store.journal| + 1, target, members)),
                post := s.post.(claims := s.post.claims - ClaimsIn(s.post.claims, s.post.parcels, members),
                waiters := OweAll(s.post.waiters, WaitersIn(s.post.claims, s.post.parcels, members))))
  }

  // ---- Draining a stop ----

  predicate RecoveryReady(stop: StopState) {
    && stop.starts == {} && stop.work == {} && stop.quiets == {} && stop.steering == {} && stop.models == {}
    && stop.enqueues == {} && stop.deliveries == {}
  }

  /** A stopped generation whose runner is gone is finished by the stop itself. */
  function RecoverStopped(s: State, l: Lease, now: nat, storeOk: bool): (n: State)
    ensures OnlyRunEnds(s, n)
    ensures SteersReleased(s.runs.live, n.runs.live) && EvidenceGrows(s.runs.live, n.runs.live)
    ensures SameWaiters(s.runs.live, n.runs.live)
    ensures OnlyGeneration(s.stop, n.stop)
  {
    if s.stop.None? || !RecoveryReady(s.stop.value) || l !in s.stop.value.active || l.id !in s.stop.value.members then s
    else if !ExactLease(s, l) || s.store.durable[l.id].phase != Stopping || s.store.durable[l.id].pendingStop != s.stop.value.seqNo then s
    else if !s.runs.live[l.id].recovery || s.runs.live[l.id].runnerPending then s
    else FinishStopped(s, l, None, now, storeOk, LatchNothing)
  }

  /** Nothing the stop tracks is left. */
  predicate Drained(stop: StopState) {
    && stop.active == {} && stop.settlements == {} && stop.receipts == {} && RecoveryReady(stop)
  }

  /** Completion needs everything drained, every member's wakes discarded, and clean evidence from outside the controller. */
  function CompleteStop(s: State, evidenceClean: bool, storeOk: bool): (n: State)
    ensures n == s.(store := s.store.(journal := n.store.journal, durable := n.store.durable), stop := n.stop)
  {
    if s.stop.None? || !Drained(s.stop.value) || !evidenceClean || (exists i | i in s.stop.value.members :: WakesOf(s, i) != {}) then s
    else
      match Append(s, [StopCompleted(s.stop.value.target, s.stop.value.seqNo)], storeOk)
      case None => s
      case Some(next) => s.(store := s.store.(journal := next.store.journal, durable := next.store.durable), stop := None)
  }

  // ---- Restart ----

  /** A new process: every table is empty, and the pending stop is rebuilt from the marks it left. */
  ghost function RestoredStop(d: Durable, journal: seq<Event>): Option<StopState> {
    if i :| i in d && d[i].pendingStop != 0 then
      var n := d[i].pendingStop;
      if n <= |journal| && journal[n - 1].StopRequested?
      then Some(StopState(n, journal[n - 1].id, StopMembers(d, n), {}, {}, {}, {}, {}, {}, {}, {}, {}, {}))
      else None
    else None
  }

  function OpenLeases(d: Durable): set<Lease> {
    set i | i in d && d[i].open :: Lease(i, d[i].generation)
  }

  function DerivedIndex(d: Durable): Index {
    map p | p in (set i | i in d && d[i].parent != NO_ID :: d[i].parent) :: ChildrenOf(ShapeOf(d), p)
  }

  function OwedWakes(d: Durable, pending: map<Id, set<nat>>): map<Id, set<nat>> {
    map i | i in pending && i in d && pending[i] - {0} != {} :: pending[i] - {0}
  }

  ghost function Restart(s: State, pending: map<Id, set<nat>>): State {
    State(s.store.(children := DerivedIndex(s.store.durable)),
      Runs(map[], map[], map[], 0, 0, OpenLeases(s.store.durable)),
      Tables(map[], map[], map[], map[], map[], map[], map[]),
      Post(map[], map[], map[], map[], OwedWakes(s.store.durable, pending)),
      Guards({}, map[], map[], map[], map[]),
      RestoredStop(s.store.durable, s.store.journal), false, 0, s.limits)
  }

  /** An open run no runtime came back for is finished as lost, or as stopped when a stop covers it. */
  function LoseRuntime(s: State, l: Lease, now: nat, storeOk: bool): (n: State)
    ensures n == s.(store := s.store.(journal := n.store.journal, durable := n.store.durable))
  {
    if l !in s.runs.lost || !OpenRun(s.store.durable, l.id, l.generation) then s
    else if l.id in s.runs.live && s.runs.live[l.id].binding.Some? && s.runs.live[l.id].binding.value.lease == l then s
    else
      match LostEvents(l, s.store.durable[l.id], now)
      case None => s
      case Some(batch) =>
        match Append(s, batch, storeOk)
        case None => s
        case Some(next) => next
  }

  function ForgetLost(s: State, l: Lease): (n: State)
    ensures n == s.(runs := s.runs.(lost := n.runs.lost))
  {
    if OpenRun(s.store.durable, l.id, l.generation) then s else s.(runs := s.runs.(lost := s.runs.lost - {l}))
  }

  // ---- Closing ----

  function BeginClosing(s: State): (n: State)
    ensures n == s.(closing := n.closing)
  {
    s.(closing := true)
  }

  function AppendClosure(s: State, id: Id, storeOk: bool): (n: State)
    ensures n == s.(store := s.store.(journal := n.store.journal, durable := n.store.durable))
  {
    match Append(s, [ResumabilityClosed(id)], storeOk)
    case None => s
    case Some(next) => next
  }

  function CloseResumability(s: State, actor: Option<Lease>, id: Id, storeOk: bool): (n: State)
    ensures n == s.(store := s.store.(journal := n.store.journal, durable := n.store.durable))
  {
    if s.closing || !Authorized(s, actor, id) then s else AppendClosure(s, id, storeOk)
  }

  /** A delegate whose restore inputs are gone can never run again. */
  function CloseUnrestorable(s: State, id: Id, storeOk: bool): (n: State)
    ensures n == s.(store := s.store.(journal := n.store.journal, durable := n.store.durable))
  {
    if id !in s.store.durable || s.store.durable[id].phase != Idle || !s.store.durable[id].resumable then s else AppendClosure(s, id, storeOk)
  }

  // ---- Attention wakes ----

  function OpenAttention(s: State, id: Id, wake: nat): (n: State)
    ensures n == s.(post := s.post.(attention := n.post.attention))
  {
    if AttentionReserved(s, id) then s else s.(post := s.post.(attention := Note(s.post.attention, s.store.durable, id, wake)))
  }

  function ForgetAttention(s: State, id: Id, wake: nat): (n: State)
    ensures n == s.(post := s.post.(attention := n.post.attention))
  {
    if id !in s.post.attention then s
    else
      var left := s.post.attention[id] - {wake};
      s.(post := s.post.(attention := if left == {} then s.post.attention - {id} else s.post.attention[id := left]))
  }

  // ---- Steps ----

  datatype StopStep =
    | DoStopSubtree(actor: Option<Lease>, target: Id, allowClosing: bool, storeOk: bool)
    | DoRecoverStopped(lease: Lease, now: nat, storeOk: bool)
    | DoCompleteStop(evidenceClean: bool, storeOk: bool)
    | DoRestart(wakes: map<Id, set<nat>>)
    | DoLoseRuntime(lease: Lease, now: nat, storeOk: bool)
    | DoForgetLost(lease: Lease)
    | DoBeginClosing
    | DoCloseResumability(actor: Option<Lease>, target: Id, storeOk: bool)
    | DoCloseUnrestorable(target: Id, storeOk: bool)
    | DoOpenAttention(target: Id, wake: nat)
    | DoForgetAttention(target: Id, wake: nat)

  ghost function NextStop(s: State, step: StopStep): State {
    match step
    case DoStopSubtree(actor, id, c, ok) => StopSubtree(s, actor, id, c, ok)
    case DoRecoverStopped(l, now, ok) => RecoverStopped(s, l, now, ok)
    case DoCompleteStop(e, ok) => CompleteStop(s, e, ok)
    case DoRestart(w) => Restart(s, w)
    case DoLoseRuntime(l, now, ok) => LoseRuntime(s, l, now, ok)
    case DoForgetLost(l) => ForgetLost(s, l)
    case DoBeginClosing => BeginClosing(s)
    case DoCloseResumability(actor, id, ok) => CloseResumability(s, actor, id, ok)
    case DoCloseUnrestorable(id, ok) => CloseUnrestorable(s, id, ok)
    case DoOpenAttention(id, w) => OpenAttention(s, id, w)
    case DoForgetAttention(id, w) => ForgetAttention(s, id, w)
  }
}
