/** Lane handoffs, cold restore windows, and reclaiming resident runtimes. */
module Fences {
  import opened Types
  import opened Tree
  import opened State

  function Count(counts: map<Id, nat>, id: Id): nat {
    if id in counts then counts[id] else 0
  }

  function TakeCount(counts: map<Id, nat>, id: Id): map<Id, nat> {
    counts[id := Count(counts, id) + 1]
  }

  function ReleaseCount(counts: map<Id, nat>, id: Id): map<Id, nat> {
    if Count(counts, id) <= 1 then counts - {id} else counts[id := counts[id] - 1]
  }

  // ---- Lane handoffs ----

  /** Work in a subtree that a handoff must wait for. */
  predicate SubtreeBusy(s: State, members: set<Id>) {
    || (exists i | i in members && i in s.store.durable :: s.store.durable[i].open || s.store.durable[i].pendingStop != 0 || s.store.durable[i].phase in {Running, Settling, Stopping})
    || (exists t | t in s.runs.reservations :: s.runs.reservations[t].id in members)
    || (exists t | t in s.runs.reservations :: s.runs.reservations[t].create && s.runs.reservations[t].parent != NO_ID && s.runs.reservations[t].parent in members)
    || (exists i | i in members :: Count(s.guards.laneRestores, i) > 0 || Count(s.guards.holds, i) > 0)
  }

  function BeginHandoff(s: State, id: Id): (n: State)
    ensures n == s.(guards := s.guards.(laneHandoffs := n.guards.laneHandoffs))
  {
    if id == NO_ID || s.closing || LaneCovers(s, id) then s
    else
      var members := Subtree(ShapeOf(s.store.durable), id);
      if (exists r | r in s.guards.laneHandoffs :: r in members) || SubtreeBusy(s, members) then s
      else s.(guards := s.guards.(laneHandoffs := s.guards.laneHandoffs + {id}))
  }

  function EndHandoff(s: State, id: Id): (n: State)
    ensures n == s.(guards := s.guards.(laneHandoffs := n.guards.laneHandoffs))
  {
    s.(guards := s.guards.(laneHandoffs := s.guards.laneHandoffs - {id}))
  }

  function BeginRestore(s: State, id: Id): (n: State)
    ensures n == s.(guards := s.guards.(laneRestores := n.guards.laneRestores))
  {
    if id == NO_ID || s.closing || LaneCovers(s, id) then s else s.(guards := s.guards.(laneRestores := TakeCount(s.guards.laneRestores, id)))
  }

  function EndRestore(s: State, id: Id): (n: State)
    ensures n == s.(guards := s.guards.(laneRestores := n.guards.laneRestores))
  {
    s.(guards := s.guards.(laneRestores := ReleaseCount(s.guards.laneRestores, id)))
  }

  function HoldRestore(s: State, id: Id): (n: State)
    ensures n == s.(guards := s.guards.(holds := n.guards.holds))
  {
    s.(guards := s.guards.(holds := TakeCount(s.guards.holds, id)))
  }

  function ReleaseHold(s: State, id: Id): (n: State)
    ensures n == s.(guards := s.guards.(holds := n.guards.holds))
  {
    s.(guards := s.guards.(holds := ReleaseCount(s.guards.holds, id)))
  }

  // ---- Reclamation ----

  predicate TerminalIdle(a: Aggregate) {
    a.outcome.Some? && !a.open && (a.phase == Idle || a.phase == Closed)
  }

  predicate ResidentTerminal(s: State, id: Id) {
    && id in s.store.durable && TerminalIdle(s.store.durable[id]) && Count(s.guards.holds, id) == 0
    && id in s.runs.live && s.runs.live[id].binding.None? && s.runs.live[id].runtime != 0
  }

  predicate ProcessWork(s: State, members: set<Id>) {
    || (s.stop.Some? && exists i | i in members :: i in s.stop.value.members)
    || (exists i | i in members :: i in s.guards.reclaiming)
    || StartsIn(s.runs.reservations, members) != {}
    || (exists t | t in s.runs.inputs :: s.runs.inputs[t].id in members)
    || SteeringIn(s.tables.steering, members) != {} || ModelsIn(s.tables.models, members) != {} || SettlementsIn(s.tables.settlements, members) != {}
    || WorkIn(s.tables.work, members) != {} || ReceiptsIn(s.post.receipts, members) != {}
    || ClaimsIn(s.post.claims, s.post.parcels, members) != {} || QuietsIn(s.tables.quiets, members) != {}
    || WatchesIn(s.tables.enqueues, members) != {} || WatchesIn(s.tables.deliveries, members) != {}
    || (exists l | l in s.runs.lost :: l.id in members)
  }

  /** Only steering a live generation still owes counts; a carried steer does not. */
  predicate OwesSteering(q: seq<Steer>) {
    exists k | 0 <= k < |q| :: !q[k].carries
  }

  predicate MemberQuiet(s: State, i: Id) {
    && i in s.store.durable && TerminalIdle(s.store.durable[i]) && Count(s.guards.holds, i) == 0
    && (i in s.runs.live ==>
          var v := s.runs.live[i];
          v.binding.None? && !v.recovery && !v.finalRecovery && !v.runnerPending && !OwesSteering(v.steers)
          && v.waiters == map[] && v.quiet == 0)
  }

  /** The members of a subtree that hold a resident runtime. */
  function EntriesOf(s: State, root: Id): set<Id> {
    set i | i in Subtree(ShapeOf(s.store.durable), root) && i in s.runs.live && s.runs.live[i].runtime != 0
  }

  predicate ClaimableSubtree(s: State, root: Id) {
    var members := Subtree(ShapeOf(s.store.durable), root);
    && !ProcessWork(s, members)
    && (forall i | i in members :: MemberQuiet(s, i))
    && EntriesOf(s, root) != {}
  }

  predicate Candidate(s: State, id: Id) {
    ResidentTerminal(s, id) && ClaimableSubtree(s, id)
  }

  /** Candidates with no candidate above them. */
  function Roots(s: State): set<Id> {
    set i | i in s.store.durable && Candidate(s, i) &&
            forall j | j in s.store.durable && j != i && Under(ShapeOf(s.store.durable), i, j) :: !Candidate(s, j)
  }

  /** Resident terminal runtimes no claim is settling already. */
  function Unsettled(s: State): set<Id> {
    set i | i in s.store.durable && ResidentTerminal(s, i) && i !in s.guards.reclaiming
  }

  function EntriesOver(s: State, roots: set<Id>): set<Id> {
    set r, i | r in roots && i in EntriesOf(s, r) :: i
  }

  function Needed(s: State, required: nat): int {
    |Unsettled(s)| + required - s.limits.retained
  }

  /** The order candidates are spent in: closed first, then acknowledged, then longest ended, then by id. */
  predicate SpentBefore(s: State, i: Id, j: Id)
    requires i in s.store.durable && j in s.store.durable && s.store.durable[i].outcome.Some? && s.store.durable[j].outcome.Some?
  {
    var a, b := s.store.durable[i], s.store.durable[j];
    var aClosed, bClosed := a.phase == Closed || !a.resumable, b.phase == Closed || !b.resumable;
    if aClosed != bClosed then aClosed
    else if (a.queue == []) != (b.queue == []) then a.queue == []
    else if a.outcome.value.endedAt != b.outcome.value.endedAt then a.outcome.value.endedAt < b.outcome.value.endedAt
    else i < j
  }

  /** A shortest prefix of the candidate roots, in spending order, that reaches the need. */
  predicate Selection(s: State, required: nat, roots: set<Id>) {
    && roots <= Roots(s)
    && (forall i, j | i in Roots(s) && j in roots && SpentBefore(s, i, j) :: i in roots)
    && |EntriesOver(s, roots)| >= Needed(s, required) > 0
    && (forall last | last in roots && (forall i | i in roots && i != last :: SpentBefore(s, i, last)) ::
          |EntriesOver(s, roots - {last})| < Needed(s, required))
  }

  function RuntimesAt(s: State, ids: set<Id>): map<Id, Runtime>
    requires forall i | i in ids :: i in s.runs.live
  {
    map i | i in ids :: s.runs.live[i].runtime
  }

  function Arm(s: State, roots: set<Id>): (n: State)
    ensures n == s.(nextToken := n.nextToken, guards := s.guards.(reclaiming := n.guards.reclaiming, reclamations := n.guards.reclamations))
    ensures s.nextToken <= n.nextToken
  {
    var t, entries := s.nextToken + 1, EntriesOver(s, roots);
    s.(nextToken := t,
       guards := s.guards.(reclaiming := map i | i in s.guards.reclaiming.Keys + entries :: if i in entries then t else s.guards.reclaiming[i],
       reclamations := s.guards.reclamations[t := Reclamation(roots, RuntimesAt(s, entries))]))
  }

  function ClaimReclamation(s: State, required: nat, roots: set<Id>): (n: State)
    ensures n == s.(nextToken := n.nextToken, guards := s.guards.(reclaiming := n.guards.reclaiming, reclamations := n.guards.reclamations))
    ensures s.nextToken <= n.nextToken
  {
    if required == 0 || s.closing || !Selection(s, required, roots) then s else Arm(s, roots)
  }

  /** `sharesStore`: some record names a member's session as the owner of its task store. */
  function ClaimIdleRelease(s: State, id: Id, sharesStore: bool): (n: State)
    ensures n == s.(nextToken := n.nextToken, guards := s.guards.(reclaiming := n.guards.reclaiming, reclamations := n.guards.reclamations))
    ensures s.nextToken <= n.nextToken
  {
    if s.closing || Count(s.guards.holds, id) > 0 || !Candidate(s, id) || sharesStore then s else Arm(s, {id})
  }

  /** The reclaiming marks a claim gives back are its own. */
  function Unmarked(reclaiming: map<Id, Token>, t: Token, entries: map<Id, Runtime>): map<Id, Token> {
    map i | i in reclaiming && !(reclaiming[i] == t && i in entries) :: reclaiming[i]
  }

  /** Clears exactly the runtimes reported closed that are still installed and unbound. */
  function Evicted(live: map<Id, Live>, entries: map<Id, Runtime>, closed: map<Id, Runtime>): map<Id, Live> {
    map i | i in live ::
      if i in entries && i in closed && closed[i] == entries[i] && live[i].binding.None? && live[i].runtime == entries[i]
      then live[i].(runtime := 0) else live[i]
  }

  function CompleteReclamation(s: State, t: Token, closed: map<Id, Runtime>): (n: State)
    ensures n == s.(guards := s.guards.(reclaiming := n.guards.reclaiming, reclamations := n.guards.reclamations),
                    runs := s.runs.(live := n.runs.live))
    ensures SameSteers(s.runs.live, n.runs.live) && EvidenceGrows(s.runs.live, n.runs.live)
    ensures SameWaiters(s.runs.live, n.runs.live)
    ensures SameLeases(s.runs.live, n.runs.live)
  {
    if t !in s.guards.reclamations then s
    else
      s.(guards := s.guards.(reclamations := s.guards.reclamations - {t},
         reclaiming := Unmarked(s.guards.reclaiming, t, s.guards.reclamations[t].entries)),
         runs := s.runs.(live := Evicted(s.runs.live, s.guards.reclamations[t].entries, closed)))
  }

  function AbortReclamation(s: State, t: Token): (n: State)
    ensures n == s.(guards := s.guards.(reclaiming := n.guards.reclaiming, reclamations := n.guards.reclamations))
  {
    if t !in s.guards.reclamations then s
    else
      s.(guards := s.guards.(reclamations := s.guards.reclamations - {t}, reclaiming := Unmarked(s.guards.reclaiming, t, s.guards.reclamations[t].entries)))
  }

  // ---- Steps ----

  datatype FenceStep =
    | DoBeginHandoff(target: Id)
    | DoEndHandoff(target: Id)
    | DoBeginRestore(target: Id)
    | DoEndRestore(target: Id)
    | DoHoldRestore(target: Id)
    | DoReleaseHold(target: Id)
    | DoClaimReclamation(required: nat, roots: set<Id>)
    | DoClaimIdleRelease(target: Id, sharesStore: bool)
    | DoCompleteReclamation(token: Token, closed: map<Id, Runtime>)
    | DoAbortReclamation(token: Token)

  function NextFence(s: State, step: FenceStep): State {
    match step
    case DoBeginHandoff(id) => BeginHandoff(s, id)
    case DoEndHandoff(id) => EndHandoff(s, id)
    case DoBeginRestore(id) => BeginRestore(s, id)
    case DoEndRestore(id) => EndRestore(s, id)
    case DoHoldRestore(id) => HoldRestore(s, id)
    case DoReleaseHold(id) => ReleaseHold(s, id)
    case DoClaimReclamation(n, roots) => ClaimReclamation(s, n, roots)
    case DoClaimIdleRelease(id, x) => ClaimIdleRelease(s, id, x)
    case DoCompleteReclamation(t, c) => CompleteReclamation(s, t, c)
    case DoAbortReclamation(t) => AbortReclamation(s, t)
  }
}
