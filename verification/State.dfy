/** The controller's tables, and the admission checks its operations share. */
module State {
  import opened Types
  import opened Tree
  import opened Journal

  /** A run's own account of how it ended. */
  datatype Finish = Finish(
    outcome: Option<Status>,
    disposition: Option<Disposition>,
    reason: Reason,
    error: string,
    packet: Option<Packet>,
    endedAt: nat,
    exhaustion: Option<Exhaustion>)

  /** Whether a generation owes a report, and what it has shown so far. */
  datatype Evidence = Evidence(reportRequired: bool, noAction: bool, terminalSeen: bool, fallback: Option<Finish>)

  datatype Binding = Binding(lease: Lease, runtime: Runtime, ready: bool, input: Token, evidence: Evidence)

  /** An admitted steer. One accepted under a covering stop carries to the next generation. */
  datatype Steer = Steer(entry: nat, carries: bool)

  datatype Live = Live(
    runtime: Runtime,
    binding: Option<Binding>,
    steers: seq<Steer>,
    waiters: map<nat, Token>,
    recovery: bool,
    finalRecovery: bool,
    runnerPending: bool,
    quiet: Token)

  const NO_LIVE := Live(0, None, [], map[], false, false, false, 0)

  datatype Reservation = Reservation(
    id: Id, generation: nat, trigger: Trigger, create: bool, parent: Id, runtime: Runtime, waiter: Token)

  datatype SteerClaim = SteerClaim(lease: Lease, runtime: Runtime, entry: nat)
  datatype ModelClaim = ModelClaim(lease: Lease, runtime: Runtime, entries: seq<nat>)

  datatype Mode = Ordinary | Terminal
  /** `joined` is the quiet claim the settlement waits for; zero when none was in flight. */
  datatype SettlementClaim = SettlementClaim(lease: Lease, mode: Mode, joined: Token, runErrorKnown: bool, runFailed: bool)

  datatype Work = Work(owner: Lease, committed: bool)
  datatype Watch = Watch(source: Id, generation: nat, receiver: Id, delivery: nat, update: nat)

  /** An admitted delivery. `held` names the receiver's own claim that an inline reply took over; zero when none. */
  datatype Receipt = Receipt(
    did: DeliveryId, delegate: Id, owner: Id, claim: Token, cold: bool, inline: bool, retryable: bool, held: Token)

  /** A delivery claim and the plan minted with it. `waiter` is the claim's, `planWaiter` the plan's. */
  datatype Parcel = Parcel(
    did: DeliveryId, delegate: Id, owner: Id, packet: Packet, waiter: Token, planWaiter: Token,
    cold: bool, held: bool, refused: bool, carried: seq<Pending>, heldClaim: Token)

  /** A delivery plan in a caller's hands. */
  datatype Plan = Plan(
    did: DeliveryId, delegate: Id, owner: Id, packet: Packet, waiter: Token, claim: Token,
    callerCommitted: bool, carried: seq<Pending>, heldClaim: Token)

  /** Where an inline waiter is. */
  datatype WaiterState =
    | Reserved(reservation: Token)
    | Registered(id: Id, generation: nat)
    | Claimed(parcel: Token)
    | Owed
    | Answered
    | Withdrawn
    | Discarded

  datatype Reclamation = Reclamation(roots: set<Id>, entries: map<Id, Runtime>)

  datatype StopState = StopState(
    seqNo: nat, target: Id, members: set<Id>,
    active: set<Lease>, starts: set<Token>, work: set<Token>, receipts: set<Token>,
    quiets: set<Token>, steering: set<Token>, models: set<Token>, settlements: set<Token>,
    enqueues: set<Token>, deliveries: set<Token>)

  /** What the journal says. */
  datatype Store = Store(journal: seq<Event>, durable: Durable, children: Index)

  /** Runtimes, start reservations, first inputs, and the slots they use; `lost` are the open runs a restart found. */
  datatype Runs = Runs(
    live: map<Id, Live>, reservations: map<Token, Reservation>, inputs: map<Token, Lease>,
    turns: nat, drives: nat, lost: set<Lease>)

  /** Claims of running generations, and watch receipts. */
  datatype Tables = Tables(
    steering: map<Token, SteerClaim>, models: map<Token, ModelClaim>, settlements: map<Token, SettlementClaim>,
    work: map<Token, Work>, quiets: map<Token, Lease>, enqueues: map<Token, Watch>, deliveries: map<Token, Watch>)

  /** Deliveries, their waiters, and the wakes they leave. */
  datatype Post = Post(
    receipts: map<Token, Receipt>, claims: map<DeliveryId, Token>, parcels: map<Token, Parcel>,
    waiters: map<Token, WaiterState>, attention: map<Id, set<nat>>)

  /** Lane handoffs, restore windows and holds, and runtimes being reclaimed. */
  datatype Guards = Guards(
    laneHandoffs: set<Id>, laneRestores: map<Id, nat>, holds: map<Id, nat>,
    reclaiming: map<Id, Token>, reclamations: map<Token, Reclamation>)

  datatype State = State(
    store: Store, runs: Runs, tables: Tables, post: Post, guards: Guards,
    stop: Option<StopState>, closing: bool, nextToken: Token, limits: Limits)

  datatype Limits = Limits(turns: nat, drives: nat, retained: nat)

  // ---- Journal append ----

  /** The store takes a batch whole or not at all, and may refuse for reasons of its own. */
  function Append(s: State, batch: seq<Event>, storeOk: bool): (n: Option<State>)
    ensures n.Some? ==> n.value == s.(store := s.store.(journal := s.store.journal + batch, durable := n.value.store.durable))
  {
    if !storeOk then None
    else
      match ApplyBatch(s.store.durable, |s.store.journal|, batch)
      case None => None
      case Some(d) => Some(s.(store := s.store.(journal := s.store.journal + batch, durable := d)))
  }

  // ---- Admission ----

  predicate ExactLease(s: State, l: Lease) {
    && OpenRun(s.store.durable, l.id, l.generation)
    && l.id in s.runs.live && s.runs.live[l.id].binding.Some? && s.runs.live[l.id].binding.value.lease == l
  }

  predicate StopCovers(s: State, id: Id) {
    s.stop.Some? && id in s.stop.value.members
  }

  predicate Reclaimed(s: State, id: Id) {
    exists r | r in s.guards.reclaiming :: Under(ShapeOf(s.store.durable), id, r)
  }

  predicate LaneCovers(s: State, id: Id) {
    id != NO_ID && exists r | r in s.guards.laneHandoffs :: Under(ShapeOf(s.store.durable), id, r)
  }

  /** Some delegate from `p` up refuses work beneath it. */
  predicate Fenced(d: Durable, p: Id)
    decreases if p in d then d[p].born + 1 else 0
  {
    p != NO_ID &&
    (p !in d || !d[p].resumable || d[p].pendingStop != 0 ||
     (d[p].parent in d && d[d[p].parent].born < d[p].born && Fenced(d, d[p].parent)))
  }

  /** A running lease that no fence, stop, recovery or close holds back. */
  predicate Admitted(s: State, l: Lease) {
    && !s.closing && !Reclaimed(s, l.id) && ExactLease(s, l)
    && var a, live := s.store.durable[l.id], s.runs.live[l.id];
    && !live.recovery && a.pendingStop == 0 && a.resumable && live.binding.value.ready
    && !Fenced(s.store.durable, a.parent) && a.phase == Running
  }

  /** The root session controls root-level delegates, an exact parent lease its direct children. */
  predicate Authorized(s: State, actor: Option<Lease>, target: Id) {
    && target in s.store.durable
    && var parent := s.store.durable[target].parent;
    && if parent == NO_ID then actor.None?
       else actor.Some? && ExactLease(s, actor.value) && actor.value.id == parent
  }

  predicate HasReservation(s: State, id: Id) {
    exists t | t in s.runs.reservations :: s.runs.reservations[t].id == id
  }

  predicate HasSettlement(s: State, l: Lease) {
    exists t | t in s.tables.settlements :: s.tables.settlements[t].lease == l
  }

  predicate IdleRestorable(s: State, id: Id) {
    && !s.closing && id in s.store.durable
    && s.store.durable[id].phase == Idle && s.store.durable[id].resumable && s.store.durable[id].pendingStop == 0
    && !Reclaimed(s, id)
  }

  function WakesOf(s: State, id: Id): set<nat> {
    if id in s.post.attention then s.post.attention[id] else {}
  }

  // ---- Deliveries ----

  /** Closing or a stop refuses this delivery for good. */
  predicate DeliveryStopped(s: State, delegate: Id, owner: Id) {
    || s.closing || delegate !in s.store.durable || s.store.durable[delegate].pendingStop != 0
    || (owner != NO_ID && (owner !in s.store.durable || s.store.durable[owner].pendingStop != 0))
    || StopCovers(s, delegate) || StopCovers(s, owner)
  }

  predicate HasReceipt(s: State, did: DeliveryId) {
    exists t | t in s.post.receipts :: s.post.receipts[t].did == did
  }

  /** Claims and receipts addressed to `owner`; a start admission overlooks claims kept for a retry. */
  predicate DeliveryWork(s: State, owner: Id, overlookRefused: bool) {
    && owner != NO_ID
    && ((exists k | k in s.post.claims && s.post.claims[k] in s.post.parcels ::
           s.post.parcels[s.post.claims[k]].owner == owner && !(overlookRefused && s.post.parcels[s.post.claims[k]].refused))
        || (exists t | t in s.post.receipts :: s.post.receipts[t].owner == owner))
  }

  predicate ColdDeliveryWork(s: State, owner: Id) {
    || (exists k | k in s.post.claims && s.post.claims[k] in s.post.parcels :: s.post.parcels[s.post.claims[k]].owner == owner && s.post.parcels[s.post.claims[k]].cold)
    || (exists t | t in s.post.receipts :: s.post.receipts[t].owner == owner && s.post.receipts[t].cold)
  }

  predicate AttentionReserved(s: State, id: Id) {
    exists t | t in s.runs.reservations :: s.runs.reservations[t].id == id && s.runs.reservations[t].trigger == AttentionTrigger
  }

  datatype Receiver = NoReceiver | Warm | Cold

  function ReceiverOf(s: State, owner: Id): Receiver {
    if owner == NO_ID then Warm
    else if owner in s.runs.live && s.runs.live[owner].runtime != 0 then Warm
    else if owner in s.store.durable && s.store.durable[owner].phase == Idle then Cold
    else NoReceiver
  }

  // ---- The stop's tracked sets ----

  /** The lease a delegate's runtime is bound to, if any. */
  function LeaseAt(live: map<Id, Live>, i: Id): Option<Lease> {
    if i in live && live[i].binding.Some? then Some(live[i].binding.value.lease) else None
  }

  /** No lease moves. */
  ghost predicate SameLeases(a: map<Id, Live>, b: map<Id, Live>) {
    forall i :: LeaseAt(a, i) == LeaseAt(b, i)
  }

  /** The registered waiters of a delegate, by generation. */
  function WaitersAt(live: map<Id, Live>, i: Id): map<nat, Token> {
    if i in live then live[i].waiters else map[]
  }

  /** No registered waiter moves. */
  ghost predicate SameWaiters(a: map<Id, Live>, b: map<Id, Live>) {
    forall i :: WaitersAt(a, i) == WaitersAt(b, i)
  }

  function SteersAt(live: map<Id, Live>, i: Id): seq<Steer> {
    if i in live then live[i].steers else []
  }

  /** No admitted steer comes or goes. */
  ghost predicate SameSteers(a: map<Id, Live>, b: map<Id, Live>) {
    forall i :: SteersAt(a, i) == SteersAt(b, i)
  }

  function EvidenceAt(live: map<Id, Live>, i: Id): Evidence {
    if i in live && live[i].binding.Some? then live[i].binding.value.evidence else Evidence(false, false, false, None)
  }

  predicate MoreEvidence(a: Evidence, b: Evidence) {
    (a.reportRequired ==> b.reportRequired) && (a.terminalSeen ==> b.terminalSeen)
  }

  /** While a generation stays bound, neither its report requirement nor its seen terminal is taken back. */
  ghost predicate EvidenceGrows(a: map<Id, Live>, b: map<Id, Live>) {
    forall i :: LeaseAt(a, i).Some? && LeaseAt(b, i) == LeaseAt(a, i) ==> MoreEvidence(EvidenceAt(a, i), EvidenceAt(b, i))
  }

  /** Neither leases nor waiters nor steers move, and evidence only grows. */
  ghost predicate LiveKept(a: map<Id, Live>, b: map<Id, Live>) {
    SameLeases(a, b) && SameWaiters(a, b) && SameSteers(a, b) && EvidenceGrows(a, b)
  }

  function ActiveIn(live: map<Id, Live>, members: set<Id>): set<Lease> {
    set i | i in members && LeaseAt(live, i).Some? :: LeaseAt(live, i).value
  }

  function StartsIn(t: map<Token, Reservation>, members: set<Id>): set<Token> {
    set k | k in t && t[k].id in members
  }

  function WorkIn(t: map<Token, Work>, members: set<Id>): set<Token> {
    set k | k in t && t[k].owner.id in members
  }

  function ReceiptsIn(t: map<Token, Receipt>, members: set<Id>): set<Token> {
    set k | k in t && (t[k].delegate in members || t[k].owner in members)
  }

  function QuietsIn(t: map<Token, Lease>, members: set<Id>): set<Token> {
    set k | k in t && t[k].id in members
  }

  function SteeringIn(t: map<Token, SteerClaim>, members: set<Id>): set<Token> {
    set k | k in t && t[k].lease.id in members
  }

  function ModelsIn(t: map<Token, ModelClaim>, members: set<Id>): set<Token> {
    set k | k in t && t[k].lease.id in members
  }

  function SettlementsIn(t: map<Token, SettlementClaim>, members: set<Id>): set<Token> {
    set k | k in t && t[k].lease.id in members
  }

  function WatchesIn(t: map<Token, Watch>, members: set<Id>): set<Token> {
    set k | k in t && (t[k].source in members || t[k].receiver in members)
  }

  function ClaimsIn(claims: map<DeliveryId, Token>, parcels: map<Token, Parcel>, members: set<Id>): set<DeliveryId> {
    set k | k in claims && claims[k] in parcels &&
            (parcels[claims[k]].delegate in members || parcels[claims[k]].owner in members)
  }

  /** A known waiter moves on. */
  function Moved(waiters: map<Token, WaiterState>, w: Token, to: WaiterState): map<Token, WaiterState> {
    if w in waiters then waiters[w := to] else waiters
  }

  // ---- What a step may change of a pending stop ----

  predicate OnlyStarts(a: Option<StopState>, b: Option<StopState>) {
    if a.None? then b.None? else b.Some? && b.value == a.value.(starts := b.value.starts)
  }

  predicate OnlyWork(a: Option<StopState>, b: Option<StopState>) {
    if a.None? then b.None? else b.Some? && b.value == a.value.(work := b.value.work)
  }

  predicate OnlyReceipts(a: Option<StopState>, b: Option<StopState>) {
    if a.None? then b.None? else b.Some? && b.value == a.value.(receipts := b.value.receipts)
  }

  predicate OnlyQuiets(a: Option<StopState>, b: Option<StopState>) {
    if a.None? then b.None? else b.Some? && b.value == a.value.(quiets := b.value.quiets)
  }

  predicate OnlySteering(a: Option<StopState>, b: Option<StopState>) {
    if a.None? then b.None? else b.Some? && b.value == a.value.(steering := b.value.steering)
  }

  predicate OnlyModels(a: Option<StopState>, b: Option<StopState>) {
    if a.None? then b.None? else b.Some? && b.value == a.value.(models := b.value.models)
  }

  predicate OnlySettlements(a: Option<StopState>, b: Option<StopState>) {
    if a.None? then b.None? else b.Some? && b.value == a.value.(settlements := b.value.settlements)
  }

  predicate OnlyWatches(a: Option<StopState>, b: Option<StopState>) {
    if a.None? then b.None? else b.Some? && b.value == a.value.(enqueues := b.value.enqueues, deliveries := b.value.deliveries)
  }

  /** Ending a run may touch the journal, the stop, the run's claims and the slots, and nothing else. */
  predicate OnlyRunEnds(s: State, n: State) {
    n == s.(store := s.store.(journal := n.store.journal, durable := n.store.durable),
            stop := n.stop,
            tables := s.tables.(settlements := n.tables.settlements, steering := n.tables.steering, models := n.tables.models),
            runs := s.runs.(inputs := n.runs.inputs, live := n.runs.live, turns := n.runs.turns, drives := n.runs.drives))
  }

  predicate OnlyGeneration(a: Option<StopState>, b: Option<StopState>) {
    if a.None? then b.None? else b.Some? && b.value == a.value.(active := b.value.active, settlements := b.value.settlements)
  }

  /** A token leaves its table and, when a stop tracks it, the stop's set. */
  function UntrackStart(stop: Option<StopState>, t: Token): (r: Option<StopState>)
    ensures OnlyStarts(stop, r)
  {
    if stop.None? then None else Some(stop.value.(starts := stop.value.starts - {t}))
  }

  function UntrackWork(stop: Option<StopState>, t: Token): (r: Option<StopState>)
    ensures OnlyWork(stop, r)
  {
    if stop.None? then None else Some(stop.value.(work := stop.value.work - {t}))
  }

  function UntrackReceipt(stop: Option<StopState>, t: Token): (r: Option<StopState>)
    ensures OnlyReceipts(stop, r)
  {
    if stop.None? then None else Some(stop.value.(receipts := stop.value.receipts - {t}))
  }

  function UntrackQuiet(stop: Option<StopState>, t: Token): (r: Option<StopState>)
    ensures OnlyQuiets(stop, r)
  {
    if stop.None? then None else Some(stop.value.(quiets := stop.value.quiets - {t}))
  }

  function UntrackSteering(stop: Option<StopState>, t: Token): (r: Option<StopState>)
    ensures OnlySteering(stop, r)
  {
    if stop.None? then None else Some(stop.value.(steering := stop.value.steering - {t}))
  }

  function UntrackModel(stop: Option<StopState>, t: Token): (r: Option<StopState>)
    ensures OnlyModels(stop, r)
  {
    if stop.None? then None else Some(stop.value.(models := stop.value.models - {t}))
  }

  function UntrackSettlement(stop: Option<StopState>, t: Token): (r: Option<StopState>)
    ensures OnlySettlements(stop, r)
  {
    if stop.None? then None else Some(stop.value.(settlements := stop.value.settlements - {t}))
  }

  function UntrackEnqueue(stop: Option<StopState>, t: Token): (r: Option<StopState>)
    ensures OnlyWatches(stop, r)
  {
    if stop.None? then None else Some(stop.value.(enqueues := stop.value.enqueues - {t}))
  }

  function UntrackWatch(stop: Option<StopState>, t: Token): (r: Option<StopState>)
    ensures OnlyWatches(stop, r)
  {
    if stop.None? then None else Some(stop.value.(deliveries := stop.value.deliveries - {t}))
  }
}
