/** Claims a running generation takes: steering, model requests, shell work, quiet notices and watch receipts. */
module Claims {
  import opened Types
  import opened State
  import SteerProjection

  // ---- Steering ----

  /** The entry id of a new steer is minted unused. */
  predicate FreshEntry(s: State, entry: nat) {
    && entry != 0
    && (forall t | t in s.tables.steering :: s.tables.steering[t].entry != entry)
    && (forall i, k | i in s.runs.live && 0 <= k < |s.runs.live[i].steers| :: s.runs.live[i].steers[k].entry != entry)
  }

  function BeginSteer(s: State, actor: Option<Lease>, id: Id, entry: nat): (n: State)
    ensures n == s.(nextToken := n.nextToken, tables := s.tables.(steering := n.tables.steering))
    ensures s.nextToken <= n.nextToken
  {
    if !Authorized(s, actor, id) || id !in s.runs.live || s.runs.live[id].binding.None? || s.runs.live[id].binding.value.runtime == 0 then s
    else
      var l := s.runs.live[id].binding.value.lease;
      if !Admitted(s, l) || HasSettlement(s, l) || !FreshEntry(s, entry) then s
      else
        var t := s.nextToken + 1;
        s.(nextToken := t,
           tables := s.tables.(steering := s.tables.steering[t := SteerClaim(l, s.runs.live[id].binding.value.runtime, entry)]))
  }

  function ReleaseSteer(s: State, t: Token): (n: State)
    ensures n == s.(tables := s.tables.(steering := n.tables.steering), stop := n.stop)
    ensures OnlySteering(s.stop, n.stop)
  {
    s.(tables := s.tables.(steering := s.tables.steering - {t}), stop := UntrackSteering(s.stop, t))
  }

  function AddSteer(live: map<Id, Live>, id: Id, steer: Steer): (r: map<Id, Live>)
    ensures SameLeases(live, r) && SameWaiters(live, r) && EvidenceGrows(live, r)
  {
    if id in live then live[id := live[id].(steers := live[id].steers + [steer])] else live
  }

  /** A durable steer is admitted by its own generation, or carried when a stop fenced it in between. */
  function CompleteSteer(s: State, t: Token): (n: State)
    ensures n == s.(tables := s.tables.(steering := n.tables.steering), stop := n.stop, runs := s.runs.(live := n.runs.live))
    ensures EvidenceGrows(s.runs.live, n.runs.live)
    ensures SameWaiters(s.runs.live, n.runs.live)
    ensures OnlySteering(s.stop, n.stop)
    ensures SameLeases(s.runs.live, n.runs.live)
  {
    if t !in s.tables.steering then s
    else
      var c := s.tables.steering[t];
      var fenced := s.stop.Some? && t in s.stop.value.steering;
      var live := if !Admitted(s, c.lease) then (if fenced then AddSteer(s.runs.live, c.lease.id, Steer(c.entry, true)) else s.runs.live)
                  else if s.runs.live[c.lease.id].binding.value.runtime != c.runtime then s.runs.live
                  else AddSteer(s.runs.live, c.lease.id, Steer(c.entry, false));
      s.(tables := s.tables.(steering := s.tables.steering - {t}), stop := UntrackSteering(s.stop, t), runs := s.runs.(live := live))
  }

  function AbortSteer(s: State, t: Token): (n: State)
    ensures n == s.(tables := s.tables.(steering := n.tables.steering), stop := n.stop)
    ensures OnlySteering(s.stop, n.stop)
  {
    if t !in s.tables.steering then s else ReleaseSteer(s, t)
  }

  // ---- Model requests ----

  function Entries(q: seq<Steer>): (r: seq<nat>)
    ensures |r| == |q| && forall k | 0 <= k < |q| :: r[k] == q[k].entry
  {
    seq(|q|, k requires 0 <= k < |q| => q[k].entry)
  }

  function BeginModel(s: State, l: Lease): (n: State)
    ensures n == s.(nextToken := n.nextToken, tables := s.tables.(models := n.tables.models))
    ensures s.nextToken <= n.nextToken
  {
    if !Admitted(s, l) || s.runs.live[l.id].binding.value.runtime == 0 || HasSettlement(s, l) then s
    else if exists t | t in s.tables.models :: s.tables.models[t].lease == l then s
    else
      var t := s.nextToken + 1;
      s.(nextToken := t,
         tables := s.tables.(models := s.tables.models[t := ModelClaim(l, s.runs.live[l.id].binding.value.runtime, Entries(s.runs.live[l.id].steers))]))
  }

  function ReleaseModel(s: State, t: Token): (n: State)
    ensures n == s.(tables := s.tables.(models := n.tables.models), stop := n.stop)
    ensures OnlyModels(s.stop, n.stop)
  {
    s.(tables := s.tables.(models := s.tables.models - {t}), stop := UntrackModel(s.stop, t))
  }

  /** Steers other than the bound ones, in order. */
  function Unbind(q: seq<Steer>, bound: set<nat>): seq<Steer> {
    if q == [] then []
    else Unbind(q[..|q| - 1], bound) + (if q[|q| - 1].entry in bound then [] else [q[|q| - 1]])
  }

  lemma {:induction false} UnbindKeeps(q: seq<Steer>, bound: set<nat>, st: Steer)
    ensures st in Unbind(q, bound) <==> st in q && st.entry !in bound
  {
    if q != [] { UnbindKeeps(q[..|q| - 1], bound, st); }
  }

  /** Steers of the run that came after the claim: pending or being written, and not claimed. The request must not see them. */
  function LateIds(s: State, c: ModelClaim): set<nat> {
    (set st | st in SteersAt(s.runs.live, c.lease.id) && st.entry !in c.entries :: st.entry)
    + (set t | t in s.tables.steering && s.tables.steering[t].lease == c.lease && s.tables.steering[t].entry !in c.entries :: s.tables.steering[t].entry)
  }

  /** The claimed steers a request's history holds. */
  function BoundBy(s: State, c: ModelClaim, history: seq<SteerProjection.Turn>): set<nat> {
    SteerProjection.Bound(history, c.entries, LateIds(s, c))
  }

  lemma BoundByExactly(s: State, c: ModelClaim, history: seq<SteerProjection.Turn>, e: nat)
    ensures e in BoundBy(s, c, history) <==> e in c.entries && SteerProjection.Holds(history, e)
  {
    SteerProjection.BoundExactly(history, c.entries, LateIds(s, c), e);
  }

  /** A completed request consumes the claimed steers its history holds. */
  function CompleteModel(s: State, t: Token, history: seq<SteerProjection.Turn>): (n: State)
    ensures n == s.(tables := s.tables.(models := n.tables.models), stop := n.stop, runs := s.runs.(live := n.runs.live))
    ensures EvidenceGrows(s.runs.live, n.runs.live)
    ensures SameWaiters(s.runs.live, n.runs.live)
    ensures OnlyModels(s.stop, n.stop)
    ensures SameLeases(s.runs.live, n.runs.live)
  {
    hide BoundBy, LateIds, Unbind, Fenced, Reclaimed;
    if t !in s.tables.models then s
    else
      var c := s.tables.models[t];
      var freed := ReleaseModel(s, t);
      if !Admitted(s, c.lease) || s.runs.live[c.lease.id].binding.value.runtime != c.runtime then freed
      else
        var bound := BoundBy(s, c, history);
        var live := s.runs.live[c.lease.id];
        var b := live.binding.value;
        var evidence := if bound == {} then b.evidence else b.evidence.(reportRequired := true);
        freed.(runs := freed.runs.(live := s.runs.live[c.lease.id := live.(steers := Unbind(live.steers, bound),
                                                  binding := Some(b.(evidence := evidence)))]))
  }

  function AbortModel(s: State, t: Token): (n: State)
    ensures n == s.(tables := s.tables.(models := n.tables.models), stop := n.stop)
    ensures OnlyModels(s.stop, n.stop)
  {
    if t !in s.tables.models then s else ReleaseModel(s, t)
  }

  // ---- Shell work ----

  function BeginWork(s: State, l: Lease): (n: State)
    ensures n == s.(nextToken := n.nextToken, tables := s.tables.(work := n.tables.work))
    ensures s.nextToken <= n.nextToken
  {
    if !Admitted(s, l) then s
    else s.(nextToken := s.nextToken + 1, tables := s.tables.(work := s.tables.work[s.nextToken + 1 := Work(l, false)]))
  }

  /** Committing under a stop keeps the job in the stop's care. */
  function CommitWork(s: State, t: Token): (n: State)
    ensures n == s.(tables := s.tables.(work := n.tables.work), stop := n.stop)
    ensures OnlyWork(s.stop, n.stop)
  {
    if t !in s.tables.work || s.tables.work[t].committed then s
    else
      s.(tables := s.tables.(work := s.tables.work[t := s.tables.work[t].(committed := true)]),
         stop := if StopCovers(s, s.tables.work[t].owner.id) then Some(s.stop.value.(work := s.stop.value.work + {t})) else s.stop)
  }

  function RemoveWork(s: State, t: Token): (n: State)
    ensures n == s.(tables := s.tables.(work := n.tables.work), stop := n.stop)
    ensures OnlyWork(s.stop, n.stop)
  {
    s.(tables := s.tables.(work := s.tables.work - {t}), stop := UntrackWork(s.stop, t))
  }

  function AbortWork(s: State, t: Token): (n: State)
    ensures n == s.(tables := s.tables.(work := n.tables.work), stop := n.stop)
    ensures OnlyWork(s.stop, n.stop)
  {
    if t !in s.tables.work || s.tables.work[t].committed then s else RemoveWork(s, t)
  }

  function FinishWork(s: State, t: Token): (n: State)
    ensures n == s.(tables := s.tables.(work := n.tables.work), stop := n.stop)
    ensures OnlyWork(s.stop, n.stop)
  {
    if t !in s.tables.work || !s.tables.work[t].committed then s else RemoveWork(s, t)
  }

  // ---- Quiet notices ----

  function BeginQuiet(s: State, l: Lease): (n: State)
    ensures n == s.(nextToken := n.nextToken, tables := s.tables.(quiets := n.tables.quiets), runs := s.runs.(live := n.runs.live))
    ensures SameSteers(s.runs.live, n.runs.live) && EvidenceGrows(s.runs.live, n.runs.live)
    ensures SameWaiters(s.runs.live, n.runs.live)
    ensures s.nextToken <= n.nextToken
    ensures SameLeases(s.runs.live, n.runs.live)
  {
    if !Admitted(s, l) || HasSettlement(s, l) || s.runs.live[l.id].quiet != 0 then s
    else
      var t := s.nextToken + 1;
      s.(nextToken := t,
         tables := s.tables.(quiets := s.tables.quiets[t := l]),
         runs := s.runs.(live := s.runs.live[l.id := s.runs.live[l.id].(quiet := t)]))
  }

  function CompleteQuiet(s: State, t: Token): (n: State)
    ensures n == s.(tables := s.tables.(quiets := n.tables.quiets), stop := n.stop, runs := s.runs.(live := n.runs.live))
    ensures SameSteers(s.runs.live, n.runs.live) && EvidenceGrows(s.runs.live, n.runs.live)
    ensures SameWaiters(s.runs.live, n.runs.live)
    ensures OnlyQuiets(s.stop, n.stop)
    ensures SameLeases(s.runs.live, n.runs.live)
  {
    if t !in s.tables.quiets then s
    else
      var id := s.tables.quiets[t].id;
      s.(tables := s.tables.(quiets := s.tables.quiets - {t}), stop := UntrackQuiet(s.stop, t),
         runs := s.runs.(live := if id in s.runs.live && s.runs.live[id].quiet == t then s.runs.live[id := s.runs.live[id].(quiet := 0)] else s.runs.live))
  }

  // ---- Watch receipts ----

  predicate WatchValid(s: State, w: Watch, terminalSource: bool) {
    && !s.closing
    && (w.source != NO_ID ==>
          w.source in s.store.durable && s.store.durable[w.source].generation == w.generation && (terminalSource || s.store.durable[w.source].open))
    && (w.receiver != NO_ID ==> w.receiver in s.store.durable)
  }

  predicate WatchStopped(s: State, w: Watch) {
    StopCovers(s, w.source) || StopCovers(s, w.receiver)
  }

  function BeginEnqueue(s: State, w: Watch, terminalSource: bool): (n: State)
    ensures n == s.(nextToken := n.nextToken, tables := s.tables.(enqueues := n.tables.enqueues))
    ensures s.nextToken <= n.nextToken
  {
    if !WatchValid(s, w, terminalSource) || WatchStopped(s, w) then s
    else s.(nextToken := s.nextToken + 1, tables := s.tables.(enqueues := s.tables.enqueues[s.nextToken + 1 := w]))
  }

  /** An enqueue that lands becomes a delivery; a stop that tracked the one tracks the other. */
  function CompleteEnqueue(s: State, t: Token): (n: State)
    ensures n == s.(nextToken := n.nextToken,
                    tables := s.tables.(enqueues := n.tables.enqueues, deliveries := n.tables.deliveries),
                    stop := n.stop)
    ensures s.nextToken <= n.nextToken
    ensures OnlyWatches(s.stop, n.stop)
  {
    if t !in s.tables.enqueues then s
    else
      var w, u := s.tables.enqueues[t], s.nextToken + 1;
      var untracked := UntrackEnqueue(s.stop, t);
      s.(nextToken := u, tables := s.tables.(enqueues := s.tables.enqueues - {t}, deliveries := s.tables.deliveries[u := w]),
         stop := if WatchStopped(s, w) then Some(untracked.value.(deliveries := untracked.value.deliveries + {u})) else untracked)
  }

  function AbortEnqueue(s: State, t: Token): (n: State)
    ensures n == s.(tables := s.tables.(enqueues := n.tables.enqueues), stop := n.stop)
    ensures OnlyWatches(s.stop, n.stop)
  {
    if t !in s.tables.enqueues then s else s.(tables := s.tables.(enqueues := s.tables.enqueues - {t}), stop := UntrackEnqueue(s.stop, t))
  }

  function AcquireWatch(s: State, w: Watch, terminalSource: bool): (n: State)
    ensures n == s.(nextToken := n.nextToken, tables := s.tables.(deliveries := n.tables.deliveries))
    ensures s.nextToken <= n.nextToken
  {
    if !WatchValid(s, w, terminalSource) then s
    else if exists t | t in s.tables.deliveries :: s.tables.deliveries[t].delivery == w.delivery && s.tables.deliveries[t].update == w.update then s
    else if WatchStopped(s, w) then s
    else s.(nextToken := s.nextToken + 1, tables := s.tables.(deliveries := s.tables.deliveries[s.nextToken + 1 := w]))
  }

  function CompleteWatch(s: State, t: Token): (n: State)
    ensures n == s.(tables := s.tables.(deliveries := n.tables.deliveries), stop := n.stop)
    ensures OnlyWatches(s.stop, n.stop)
  {
    if t !in s.tables.deliveries then s else s.(tables := s.tables.(deliveries := s.tables.deliveries - {t}), stop := UntrackWatch(s.stop, t))
  }

  // ---- Steps ----

  datatype ClaimStep =
    | DoBeginSteer(actor: Option<Lease>, target: Id, entry: nat)
    | DoCompleteSteer(token: Token)
    | DoAbortSteer(token: Token)
    | DoBeginModel(lease: Lease)
    | DoCompleteModel(token: Token, history: seq<SteerProjection.Turn>)
    | DoAbortModel(token: Token)
    | DoBeginWork(lease: Lease)
    | DoCommitWork(token: Token)
    | DoAbortWork(token: Token)
    | DoFinishWork(token: Token)
    | DoBeginQuiet(lease: Lease)
    | DoCompleteQuiet(token: Token)
    | DoBeginEnqueue(watch: Watch, terminalSource: bool)
    | DoCompleteEnqueue(token: Token)
    | DoAbortEnqueue(token: Token)
    | DoAcquireWatch(watch: Watch, terminalSource: bool)
    | DoCompleteWatch(token: Token)

  function NextClaim(s: State, step: ClaimStep): State {
    match step
    case DoBeginSteer(actor, id, e) => BeginSteer(s, actor, id, e)
    case DoCompleteSteer(t) => CompleteSteer(s, t)
    case DoAbortSteer(t) => AbortSteer(s, t)
    case DoBeginModel(l) => BeginModel(s, l)
    case DoCompleteModel(t, p) => CompleteModel(s, t, p)
    case DoAbortModel(t) => AbortModel(s, t)
    case DoBeginWork(l) => BeginWork(s, l)
    case DoCommitWork(t) => CommitWork(s, t)
    case DoAbortWork(t) => AbortWork(s, t)
    case DoFinishWork(t) => FinishWork(s, t)
    case DoBeginQuiet(l) => BeginQuiet(s, l)
    case DoCompleteQuiet(t) => CompleteQuiet(s, t)
    case DoBeginEnqueue(w, x) => BeginEnqueue(s, w, x)
    case DoCompleteEnqueue(t) => CompleteEnqueue(s, t)
    case DoAbortEnqueue(t) => AbortEnqueue(s, t)
    case DoAcquireWatch(w, x) => AcquireWatch(s, w, x)
    case DoCompleteWatch(t) => CompleteWatch(s, t)
  }
}
