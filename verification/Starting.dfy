/** Starting a generation: reservations, capacity, commit, runtime attachment and the first input. */
module Starting {
  import opened Types
  import opened Tree
  import opened State
  import opened Settle
  import opened Finishing

  predicate CapacityLeft(s: State, trigger: Trigger) {
    if trigger == AttentionTrigger then s.runs.drives < s.limits.drives else s.runs.turns < s.limits.turns
  }

  function Reserve(s: State, r: Reservation): (n: State)
    ensures n == s.(nextToken := n.nextToken,
                    runs := s.runs.(reservations := n.runs.reservations, turns := n.runs.turns, drives := n.runs.drives))
    ensures s.nextToken <= n.nextToken
  {
    if !CapacityLeft(s, r.trigger) then s
    else
      var drive := r.trigger == AttentionTrigger;
      s.(nextToken := s.nextToken + 1, runs := s.runs.(reservations := s.runs.reservations[s.nextToken + 1 := r],
         turns := if drive then s.runs.turns else s.runs.turns + 1, drives := if drive then s.runs.drives + 1 else s.runs.drives))
  }

  /** A minted id is nobody's: no record, no handoff and no other pending creation carries it. */
  predicate FreshId(s: State, id: Id) {
    id != NO_ID && id !in s.store.durable && id !in s.guards.laneHandoffs && !HasReservation(s, id)
  }

  function ReserveCreate(s: State, actor: Option<Lease>, newId: Id): (n: State)
    ensures n == s.(nextToken := n.nextToken,
                    runs := s.runs.(reservations := n.runs.reservations, turns := n.runs.turns, drives := n.runs.drives))
    ensures s.nextToken <= n.nextToken
  {
    var parent := if actor.Some? then actor.value.id else NO_ID;
    if s.closing || (actor.Some? && !Admitted(s, actor.value)) || LaneCovers(s, parent) || !FreshId(s, newId) then s
    else Reserve(s, Reservation(newId, 1, InitialTrigger, true, parent, 0, 0))
  }

  function ReserveStart(s: State, actor: Option<Lease>, id: Id): (n: State)
    ensures n == s.(nextToken := n.nextToken,
                    runs := s.runs.(reservations := n.runs.reservations, turns := n.runs.turns, drives := n.runs.drives))
    ensures s.nextToken <= n.nextToken
  {
    if s.closing || !Authorized(s, actor, id) || (actor.Some? && !Admitted(s, actor.value)) then s
    else if !IdleRestorable(s, id) || LaneCovers(s, id) || HasReservation(s, id) then s
    else Reserve(s, Reservation(id, s.store.durable[id].generation + 1, OwnerInput, false, s.store.durable[id].parent, 0, 0))
  }

  predicate ResidentAt(s: State, id: Id, runtime: Runtime) {
    && runtime != 0 && id in s.runs.live
    && (s.runs.live[id].runtime == runtime || (s.runs.live[id].binding.Some? && s.runs.live[id].binding.value.runtime == runtime))
  }

  predicate WakeEligible(s: State, id: Id) {
    && IdleRestorable(s, id)
    && (id in s.runs.live ==> s.runs.live[id].binding.None? && !s.runs.live[id].recovery)
  }

  function ReserveAttention(s: State, id: Id, runtime: Runtime, attention: nat): (n: State)
    ensures n == s.(nextToken := n.nextToken,
                    runs := s.runs.(reservations := n.runs.reservations, turns := n.runs.turns, drives := n.runs.drives))
    ensures s.nextToken <= n.nextToken
  {
    if s.closing || !ResidentAt(s, id, runtime) || attention == 0 || !WakeEligible(s, id) || HasReservation(s, id) then s
    else if DeliveryWork(s, id, false) || Fenced(s.store.durable, s.store.durable[id].parent) || LaneCovers(s, id) then s
    else Reserve(s, Reservation(id, s.store.durable[id].generation + 1, AttentionTrigger, false, s.store.durable[id].parent, runtime, 0))
  }

  /** Bootstrap admission of an accepted attention generation the journal never received. */
  function ReserveOwedAttention(s: State, id: Id, attention: nat, generation: nat): (n: State)
    ensures n == s.(nextToken := n.nextToken,
                    runs := s.runs.(reservations := n.runs.reservations, turns := n.runs.turns, drives := n.runs.drives))
    ensures s.nextToken <= n.nextToken
  {
    if attention == 0 || generation == 0 || s.stop.Some? || !IdleRestorable(s, id) || HasReservation(s, id) then s
    else if s.store.durable[id].generation + 1 != generation || Fenced(s.store.durable, s.store.durable[id].parent) then s
    else if LaneCovers(s, id) || DeliveryWork(s, id, false) then s
    else Reserve(s, Reservation(id, generation, AttentionTrigger, false, s.store.durable[id].parent, 0, 0))
  }

  function RegisterWaiter(s: State, t: Token): (n: State)
    ensures n == s.(nextToken := n.nextToken,
                    runs := s.runs.(reservations := n.runs.reservations),
                    post := s.post.(waiters := n.post.waiters))
    ensures s.nextToken <= n.nextToken
  {
    if s.closing || t !in s.runs.reservations || s.runs.reservations[t].waiter != 0 then s
    else
      var w := s.nextToken + 1;
      s.(nextToken := w,
         runs := s.runs.(reservations := s.runs.reservations[t := s.runs.reservations[t].(waiter := w)]),
         post := s.post.(waiters := s.post.waiters[w := Reserved(t)]))
  }

  /** Giving a reservation back returns its capacity and its place in a stop; its waiter was never published. */
  function ReleaseReservation(s: State, t: Token): (n: State)
    ensures n == s.(runs := s.runs.(reservations := n.runs.reservations, turns := n.runs.turns, drives := n.runs.drives),
                    stop := n.stop,
                    post := s.post.(waiters := n.post.waiters))
    ensures OnlyStarts(s.stop, n.stop)
  {
    if t !in s.runs.reservations then s
    else
      s.(runs := s.runs.(reservations := s.runs.reservations - {t},
         turns := if s.runs.reservations[t].trigger == AttentionTrigger then s.runs.turns else Down(s.runs.turns),
         drives := if s.runs.reservations[t].trigger == AttentionTrigger then Down(s.runs.drives) else s.runs.drives),
         stop := UntrackStart(s.stop, t),
         post := s.post.(waiters := Moved(s.post.waiters, s.runs.reservations[t].waiter, Discarded)))
  }

  /** Everything that refuses a commit before the journal is asked. */
  predicate CommitRefused(s: State, r: Reservation, cancelled: bool) {
    || cancelled || StopCovers(s, r.id) || (s.closing && r.trigger != AttentionTrigger)
    || (if r.create then r.id in s.store.durable || r.generation != 1
        else r.id !in s.store.durable || s.store.durable[r.id].phase != Idle || s.store.durable[r.id].generation + 1 != r.generation
             || Fenced(s.store.durable, s.store.durable[r.id].parent))
    || LaneCovers(s, r.id) || (r.create && LaneCovers(s, r.parent))
    || DeliveryWork(s, r.id, true)
    || (r.waiter != 0 && r.id in s.runs.live && r.generation in s.runs.live[r.id].waiters)
  }

  function StartEvents(r: Reservation): seq<Event> {
    (if r.create then [Created(r.id, r.parent, true)] else []) + [RunStarted(r.id, r.generation, r.trigger)]
  }

  function StartedLive(old_: Live, r: Reservation): Live {
    old_.(binding := Some(Binding(Lease(r.id, r.generation), r.runtime, r.trigger == AttentionTrigger, 0,
                                  Evidence(r.trigger != AttentionTrigger, false, false, None))),
          runtime := if r.runtime != 0 then r.runtime else old_.runtime,
          waiters := if r.waiter != 0 then old_.waiters[r.generation := r.waiter] else old_.waiters,
          quiet := 0)
  }

  function Started(live: map<Id, Live>, r: Reservation): (m: map<Id, Live>)
    ensures SameSteers(live, m)
    ensures m == live[r.id := StartedLive(if r.id in live then live[r.id] else NO_LIVE, r)]
  {
    live[r.id := StartedLive(if r.id in live then live[r.id] else NO_LIVE, r)]
  }

  /** Which wakes a committed start leaves: an attention start replaces them with the ones still pending. */
  function WakesAfterStart(attention: map<Id, set<nat>>, r: Reservation, pending: set<nat>): map<Id, set<nat>> {
    if r.trigger != AttentionTrigger then attention
    else if pending - {0} == {} then attention - {r.id}
    else attention[r.id := pending - {0}]
  }

  function CommitStart(s: State, t: Token, cancelled: bool, pending: set<nat>, storeOk: bool): (n: State)
    ensures n == s.(store := s.store.(journal := n.store.journal, durable := n.store.durable, children := n.store.children),
                    runs := s.runs.(reservations := n.runs.reservations, live := n.runs.live, turns := n.runs.turns, drives := n.runs.drives),
                    stop := n.stop,
                    post := s.post.(waiters := n.post.waiters, attention := n.post.attention))
    ensures SameSteers(s.runs.live, n.runs.live)
    ensures OnlyStarts(s.stop, n.stop)
  {
    hide CommitRefused, StartEvents, StartedLive, AddChildEdge, WakesAfterStart, Moved;
    if t !in s.runs.reservations then s
    else
      var r := s.runs.reservations[t];
      if CommitRefused(s, r, cancelled) then ReleaseReservation(s, t)
      else
        match Append(s, StartEvents(r), storeOk)
        case None => if r.trigger == AttentionTrigger then s else ReleaseReservation(s, t)
        case Some(next) =>
          s.(store := s.store.(journal := next.store.journal, durable := next.store.durable,
             children := if r.create then AddChildEdge(s.store.children, r.id, r.parent) else s.store.children),
             runs := s.runs.(reservations := s.runs.reservations - {t},
             live := Started(s.runs.live, r)),
             stop := UntrackStart(s.stop, t),
             post := s.post.(waiters := Moved(s.post.waiters, r.waiter, Registered(r.id, r.generation)),
             attention := WakesAfterStart(s.post.attention, r, pending)))
  }

  function AttachRuntime(s: State, l: Lease, runtime: Runtime): (n: State)
    ensures n == s.(runs := s.runs.(live := n.runs.live))
    ensures SameSteers(s.runs.live, n.runs.live) && EvidenceGrows(s.runs.live, n.runs.live)
    ensures SameWaiters(s.runs.live, n.runs.live)
    ensures SameLeases(s.runs.live, n.runs.live)
  {
    if s.closing || LaneCovers(s, l.id) || !ExactLease(s, l) || runtime == 0 then s
    else
      var a, live := s.store.durable[l.id], s.runs.live[l.id];
      var b := live.binding.value;
      if a.phase != Running || a.pendingStop != 0 || live.recovery || (b.ready && a.trigger != AttentionTrigger) then s
      else if (live.runtime != 0 && live.runtime != runtime) || (b.runtime != 0 && b.runtime != runtime) then s
      else if exists i | i in s.runs.live && i != l.id :: ResidentAt(s, i, runtime) then s
      else s.(runs := s.runs.(live := s.runs.live[l.id := live.(runtime := runtime, binding := Some(b.(runtime := runtime)))]))
  }

  function AttachIdleRuntime(s: State, id: Id, runtime: Runtime): (n: State)
    ensures n == s.(runs := s.runs.(live := n.runs.live))
    ensures SameSteers(s.runs.live, n.runs.live) && EvidenceGrows(s.runs.live, n.runs.live)
    ensures SameWaiters(s.runs.live, n.runs.live)
    ensures SameLeases(s.runs.live, n.runs.live)
  {
    if s.closing || id !in s.store.durable || runtime == 0 || LaneCovers(s, id) then s
    else if s.store.durable[id].phase != Idle || !s.store.durable[id].resumable || s.store.durable[id].pendingStop != 0 then s
    else
      var live := if id in s.runs.live then s.runs.live[id] else NO_LIVE;
      if live.binding.Some? || live.recovery || (live.runtime != 0 && live.runtime != runtime) then s
      else if exists i | i in s.runs.live && i != id :: ResidentAt(s, i, runtime) then s
      else s.(runs := s.runs.(live := s.runs.live[id := live.(runtime := runtime)]))
  }

  // ---- The first input ----

  function BeginStartInput(s: State, l: Lease): (n: State)
    ensures n == s.(nextToken := n.nextToken, runs := s.runs.(inputs := n.runs.inputs, live := n.runs.live))
    ensures SameSteers(s.runs.live, n.runs.live) && EvidenceGrows(s.runs.live, n.runs.live)
    ensures SameWaiters(s.runs.live, n.runs.live)
    ensures s.nextToken <= n.nextToken
    ensures SameLeases(s.runs.live, n.runs.live)
  {
    if !ExactLease(s, l) then s
    else
      var a, live := s.store.durable[l.id], s.runs.live[l.id];
      var b := live.binding.value;
      if a.phase != Running || a.pendingStop != 0 || live.recovery || b.ready || b.runtime == 0 || b.input != 0
         || a.trigger == AttentionTrigger then s
      else
        var t := s.nextToken + 1;
        s.(nextToken := t, runs := s.runs.(inputs := s.runs.inputs[t := l],
           live := s.runs.live[l.id := live.(binding := Some(b.(input := t)))]))
  }

  function InputTaken(live: map<Id, Live>, id: Id): (r: map<Id, Live>)
    ensures LiveKept(live, r)
  {
    if id in live && live[id].binding.Some? then live[id := live[id].(binding := Some(live[id].binding.value.(input := 0)))] else live
  }

  function Readied(live: map<Id, Live>, id: Id): (r: map<Id, Live>)
    ensures LiveKept(live, r)
  {
    if id in live && live[id].binding.Some? then live[id := live[id].(binding := Some(live[id].binding.value.(ready := true)))] else live
  }

  function Emptied(live: map<Id, Live>, id: Id): (r: map<Id, Live>)
    ensures LiveKept(live, r)
  {
    if id in live then live[id := live[id].(runtime := 0)] else live
  }

  /** The input claim is given back whatever became of the input. */
  function Taken(s: State, t: Token): (n: State)
    requires t in s.runs.inputs
    ensures n == s.(runs := s.runs.(inputs := n.runs.inputs, live := n.runs.live)) && LiveKept(s.runs.live, n.runs.live)
  {
    s.(runs := s.runs.(inputs := s.runs.inputs - {t}, live := InputTaken(s.runs.live, s.runs.inputs[t].id)))
  }

  lemma TakenKeepsLease(s: State, t: Token)
    requires t in s.runs.inputs && ExactLease(s, s.runs.inputs[t])
    ensures ExactLease(Taken(s, t), s.runs.inputs[t])
  {
  }

  function CompleteStartInput(s: State, t: Token, committed: bool, failure: Finish, now: nat, storeOk: bool): (n: State)
    ensures OnlyRunEnds(s, n)
    ensures SteersReleased(s.runs.live, n.runs.live) && EvidenceGrows(s.runs.live, n.runs.live)
    ensures SameWaiters(s.runs.live, n.runs.live)
    ensures OnlyGeneration(s.stop, n.stop)
  {
    if t !in s.runs.inputs || !ExactLease(s, s.runs.inputs[t]) || s.runs.live[s.runs.inputs[t].id].binding.value.input != t then s
    else
      var l := s.runs.inputs[t];
      var live := s.runs.live[l.id];
      var taken := (TakenKeepsLease(s, t); Taken(s, t));
      var a := s.store.durable[l.id];
      if a.phase == Stopping then FinishStopped(taken, l, None, now, storeOk, LatchRecovery)
      else if a.phase != Running || live.recovery || live.binding.value.ready || live.binding.value.runtime == 0
              || a.trigger == AttentionTrigger then taken
      else if !committed then FinishWith(taken, l, StartFailureEvents(l, failure, now), storeOk, LatchRecovery)
      else taken.(runs := taken.runs.(live := Readied(taken.runs.live, l.id)))
  }

  /** A committed start that could not be constructed: closed for good when it was a creation, finished when a restart. */
  function FailCommitted(s: State, l: Lease, failure: Finish, close: bool, forClose: Runtime, now: nat, storeOk: bool): (n: State)
    ensures OnlyRunEnds(s, n)
    ensures SteersReleased(s.runs.live, n.runs.live) && EvidenceGrows(s.runs.live, n.runs.live)
    ensures SameWaiters(s.runs.live, n.runs.live)
    ensures OnlyGeneration(s.stop, n.stop)
  {
    if !ExactLease(s, l) then s
    else
      var a, live := s.store.durable[l.id], s.runs.live[l.id];
      if a.phase == Stopping then
        var next := FinishStopped(s, l, None, now, storeOk, LatchRecovery);
        var claimable := close && forClose != 0 && live.runtime == forClose && live.binding.value.runtime == forClose;
        if claimable && l.id in next.runs.live && next.runs.live[l.id].binding.None? && next.runs.live[l.id].runtime == forClose
        then next.(runs := next.runs.(live := Emptied(next.runs.live, l.id))) else next
      else if a.phase != Running || live.recovery || live.binding.value.ready then s
      else FinishWith(s, l, StartFailureEvents(l, failure, now) + (if close then [ResumabilityClosed(l.id)] else []),
                      storeOk, LatchRecovery)
  }

  // ---- Steps ----

  datatype StartStep =
    | DoReserveCreate(actor: Option<Lease>, newId: Id)
    | DoReserveStart(actor: Option<Lease>, target: Id)
    | DoReserveAttention(target: Id, runtime: Runtime, wake: nat)
    | DoReserveOwedAttention(target: Id, wake: nat, generation: nat)
    | DoRegisterWaiter(token: Token)
    | DoAbortStart(token: Token)
    | DoCommitStart(token: Token, cancelled: bool, pending: set<nat>, storeOk: bool)
    | DoAttachRuntime(lease: Lease, runtime: Runtime)
    | DoAttachIdleRuntime(target: Id, runtime: Runtime)
    | DoBeginStartInput(lease: Lease)
    | DoCompleteStartInput(token: Token, committed: bool, failure: Finish, now: nat, storeOk: bool)
    | DoFailCommitted(lease: Lease, failure: Finish, close: bool, forClose: Runtime, now: nat, storeOk: bool)

  function NextStart(s: State, step: StartStep): State {
    match step
    case DoReserveCreate(actor, id) => ReserveCreate(s, actor, id)
    case DoReserveStart(actor, id) => ReserveStart(s, actor, id)
    case DoReserveAttention(id, r, w) => ReserveAttention(s, id, r, w)
    case DoReserveOwedAttention(id, w, g) => ReserveOwedAttention(s, id, w, g)
    case DoRegisterWaiter(t) => RegisterWaiter(s, t)
    case DoAbortStart(t) => ReleaseReservation(s, t)
    case DoCommitStart(t, c, p, ok) => CommitStart(s, t, c, p, ok)
    case DoAttachRuntime(l, r) => AttachRuntime(s, l, r)
    case DoAttachIdleRuntime(id, r) => AttachIdleRuntime(s, id, r)
    case DoBeginStartInput(l) => BeginStartInput(s, l)
    case DoCompleteStartInput(t, c, f, now, ok) => CompleteStartInput(s, t, c, f, now, ok)
    case DoFailCommitted(l, f, c, r, now, ok) => FailCommitted(s, l, f, c, r, now, ok)
  }
}
