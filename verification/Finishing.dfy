/** Ending a generation: release, the finish reducer, settlement claims and completion evidence. */
module Finishing {
  import opened Types
  import opened State
  import opened Settle

  // ---- Capacity ----

  /** Giving a slot back saturates at zero. */
  function Down(used: nat): nat {
    if used > 0 then used - 1 else 0
  }

  // ---- Releasing a generation ----

  /** Runtime claims a release keeps: other delegates', and those a stop still tracks. */
  function KeptSteering(s: State, id: Id): map<Token, SteerClaim> {
    map t | t in s.tables.steering && (s.tables.steering[t].lease.id != id || (s.stop.Some? && t in s.stop.value.steering)) :: s.tables.steering[t]
  }

  function KeptModels(s: State, id: Id): map<Token, ModelClaim> {
    map t | t in s.tables.models && (s.tables.models[t].lease.id != id || (s.stop.Some? && t in s.stop.value.models)) :: s.tables.models[t]
  }

  function KeptSettlements(s: State, id: Id): map<Token, SettlementClaim> {
    map t | t in s.tables.settlements && s.tables.settlements[t].lease.id != id :: s.tables.settlements[t]
  }

  /** The settlement tokens a finished lease gives back, and the lease itself, leave the stop's sets. */
  function UntrackGeneration(s: State, l: Lease): (r: Option<StopState>)
    ensures OnlyGeneration(s.stop, r)
  {
    if s.stop.None? then None
    else
      var own := set t | t in s.tables.settlements && s.tables.settlements[t].lease == l;
      Some(s.stop.value.(settlements := s.stop.value.settlements - own, active := s.stop.value.active - {l}))
  }

  /** Steers accepted under a covering stop outlive the generation they were aimed at. */
  function CarriedSteers(q: seq<Steer>): seq<Steer> {
    if q == [] then []
    else CarriedSteers(q[..|q| - 1]) + (if q[|q| - 1].carries then [q[|q| - 1]] else [])
  }

  /** Leases are only given up, and with one the steers aimed at its generation alone. */
  ghost predicate SteersReleased(a: map<Id, Live>, b: map<Id, Live>) {
    forall i :: if LeaseAt(b, i) == LeaseAt(a, i) then SteersAt(b, i) == SteersAt(a, i)
                else LeaseAt(b, i).None? && SteersAt(b, i) == CarriedSteers(SteersAt(a, i))
  }

  function Unbound(live: Live): Live
    requires live.binding.Some?
  {
    live.(runtime := if live.binding.value.runtime != 0 then live.binding.value.runtime else live.runtime,
          binding := None, steers := CarriedSteers(live.steers),
          recovery := false, finalRecovery := false, runnerPending := false, quiet := 0)
  }

  /** The process-local half of a finish: claims, tracking, binding and capacity go together. */
  function ReleaseGeneration(s: State, l: Lease): (n: State)
    ensures n == s.(stop := n.stop,
                    tables := s.tables.(settlements := n.tables.settlements, steering := n.tables.steering, models := n.tables.models),
                    runs := s.runs.(inputs := n.runs.inputs, live := n.runs.live, turns := n.runs.turns, drives := n.runs.drives))
    ensures SteersReleased(s.runs.live, n.runs.live) && EvidenceGrows(s.runs.live, n.runs.live)
    ensures SameWaiters(s.runs.live, n.runs.live)
    ensures OnlyGeneration(s.stop, n.stop)
  {
    if l.id !in s.runs.live || s.runs.live[l.id].binding.None? || s.runs.live[l.id].binding.value.lease != l || l.id !in s.store.durable then s
    else
      var input := s.runs.live[l.id].binding.value.input;
      var drive := s.store.durable[l.id].trigger == AttentionTrigger;
      s.(stop := UntrackGeneration(s, l),
         tables := s.tables.(settlements := KeptSettlements(s, l.id),
         steering := KeptSteering(s, l.id),
         models := KeptModels(s, l.id)),
         runs := s.runs.(inputs := s.runs.inputs - {input},
         live := s.runs.live[l.id := Unbound(s.runs.live[l.id])],
         turns := if drive then s.runs.turns else Down(s.runs.turns),
         drives := if drive then Down(s.runs.drives) else s.runs.drives))
  }

  /** Appending a finish batch and, when it lands, releasing the generation; a failed append latches recovery. */
  function FinishWith(s: State, l: Lease, batch: seq<Event>, storeOk: bool, latch: Latch): (n: State)
    requires ExactLease(s, l)
    ensures OnlyRunEnds(s, n)
    ensures SteersReleased(s.runs.live, n.runs.live) && EvidenceGrows(s.runs.live, n.runs.live)
    ensures SameWaiters(s.runs.live, n.runs.live)
    ensures OnlyGeneration(s.stop, n.stop)
  {
    match Append(s, batch, storeOk)
    case Some(next) => ReleaseGeneration(next, l)
    case None => s.(runs := s.runs.(live := s.runs.live[l.id := Latched(s.runs.live[l.id], latch)]))
  }

  datatype Latch = LatchTriple | LatchRecovery | LatchNothing

  function Latched(live: Live, latch: Latch): Live {
    match latch
    case LatchTriple => live.(recovery := true, finalRecovery := true, runnerPending := true)
    case LatchRecovery => live.(recovery := true)
    case LatchNothing => live
  }

  function FinishStopped(s: State, l: Lease, packet: Option<Packet>, endedAt: nat, storeOk: bool, latch: Latch): (n: State)
    requires ExactLease(s, l)
    ensures OnlyRunEnds(s, n)
    ensures SteersReleased(s.runs.live, n.runs.live) && EvidenceGrows(s.runs.live, n.runs.live)
    ensures SameWaiters(s.runs.live, n.runs.live)
    ensures OnlyGeneration(s.stop, n.stop)
  {
    FinishWith(s, l, [StoppedFinishEvent(l, packet, endedAt)], storeOk, latch)
  }

  // ---- The generation finish ----

  /** A quiet write in flight, or one a settlement claim still waits for, holds the finish back. */
  predicate FinalizationReady(s: State, l: Lease) {
    && l.id in s.runs.live && s.runs.live[l.id].quiet == 0
    && forall t | t in s.tables.settlements && s.tables.settlements[t].lease == l :: s.tables.settlements[t].joined !in s.tables.quiets
  }

  function GenerationEvents(a: Aggregate, l: Lease, finish: Finish, endedAt: nat): seq<Event>
    requires a.phase == Running || (a.phase == Settling && a.prepared.Some?)
  {
    if a.phase == Settling then SettlingEvents(l, a.prepared.value, finish, endedAt)
    else RunningEvents(l, finish, endedAt)
  }

  function FinishGeneration(s: State, l: Lease, finish: Finish, authorizedNoAction: bool, now: nat, storeOk: bool): (n: State)
    ensures OnlyRunEnds(s, n)
    ensures SteersReleased(s.runs.live, n.runs.live) && EvidenceGrows(s.runs.live, n.runs.live)
    ensures SameWaiters(s.runs.live, n.runs.live)
    ensures OnlyGeneration(s.stop, n.stop)
  {
    if !ExactLease(s, l) then s
    else
      var a, live := s.store.durable[l.id], s.runs.live[l.id];
      var endedAt := if finish.endedAt != 0 then finish.endedAt else now;
      if !authorizedNoAction && a.phase == Running && finish.disposition == Some(CompletedNoAction) then s
      else if live.finalRecovery then s
      else if (a.phase == Running || a.phase == Stopping) && !FinalizationReady(s, l) then s
      else
        match a.phase
        case Stopping => FinishStopped(s, l, finish.packet, endedAt, storeOk, LatchTriple)
        case Settling => if a.prepared.None? then s else FinishWith(s, l, GenerationEvents(a, l, finish, endedAt), storeOk, LatchTriple)
        case Running => FinishWith(s, l, GenerationEvents(a, l, finish, endedAt), storeOk, LatchTriple)
        case _ => s
  }

  // ---- Settlement claims ----

  /** An ordinary finalization under a stop that already ended the run is promoted to a terminal one. */
  predicate PromotedByStop(s: State, l: Lease) {
    && s.stop.Some? && ExactLease(s, l)
    && s.store.durable[l.id].phase == Stopping && s.store.durable[l.id].pendingStop == s.stop.value.seqNo
    && l in s.stop.value.active && l.id in s.stop.value.members
    && !s.runs.live[l.id].recovery && s.runs.live[l.id].binding.value.ready
  }

  predicate TerminalAdmitted(s: State, l: Lease) {
    && ExactLease(s, l)
    && (s.store.durable[l.id].phase == Running || s.store.durable[l.id].phase == Stopping)
    && !s.runs.live[l.id].recovery && s.runs.live[l.id].binding.value.ready
  }

  function HasSteerFor(s: State, l: Lease): bool {
    exists t | t in s.tables.steering :: s.tables.steering[t].lease == l
  }

  /** How a finalization is admitted, if it is. */
  function FinalizationMode(s: State, l: Lease, mode: Mode): (m: Option<Mode>)
    ensures m.Some? ==> ExactLease(s, l)
  {
    if mode == Terminal then (if TerminalAdmitted(s, l) then Some(Terminal) else None)
    else if Admitted(s, l) then Some(Ordinary)
    else if PromotedByStop(s, l) then Some(Terminal)
    else None
  }

  function BeginFinalization(s: State, l: Lease, mode: Mode, runErrorKnown: bool, runFailed: bool): (n: State)
    ensures n == s.(nextToken := n.nextToken, tables := s.tables.(settlements := n.tables.settlements), stop := n.stop)
    ensures s.nextToken <= n.nextToken
    ensures OnlySettlements(s.stop, n.stop)
  {
    var admittedMode := FinalizationMode(s, l, mode);
    if admittedMode.None? then s
    else if mode == Ordinary && admittedMode.value == Ordinary && (s.runs.live[l.id].steers != [] || HasSteerFor(s, l)) then s
    else if HasSettlement(s, l) then s
    else
      var t := s.nextToken + 1;
      var tracked := s.stop.Some? && l in s.stop.value.active && l.id in s.stop.value.members;
      s.(nextToken := t,
         tables := s.tables.(settlements := s.tables.settlements[t := SettlementClaim(l, admittedMode.value, s.runs.live[l.id].quiet, runErrorKnown, runFailed)]),
         stop := if tracked then Some(s.stop.value.(settlements := s.stop.value.settlements + {t})) else s.stop)
  }

  predicate ClaimReady(s: State, t: Token)
    requires t in s.tables.settlements
  {
    var c := s.tables.settlements[t];
    && c.joined !in s.tables.quiets
    && c.lease.id in s.runs.live && s.runs.live[c.lease.id].binding.Some? && s.runs.live[c.lease.id].binding.value.lease == c.lease
    && s.runs.live[c.lease.id].quiet == 0
  }

  /** Preparing the terminal packet settles the claim; the run stays open until its finish. */
  function CompleteSettlement(s: State, t: Token, packet: Option<Packet>, storeOk: bool): (n: State)
    ensures n == s.(store := s.store.(journal := n.store.journal, durable := n.store.durable),
                    tables := s.tables.(settlements := n.tables.settlements),
                    stop := n.stop,
                    runs := s.runs.(live := n.runs.live))
    ensures SameSteers(s.runs.live, n.runs.live) && EvidenceGrows(s.runs.live, n.runs.live)
    ensures SameWaiters(s.runs.live, n.runs.live)
    ensures OnlySettlements(s.stop, n.stop)
    ensures SameLeases(s.runs.live, n.runs.live)
  {
    if t !in s.tables.settlements || s.tables.settlements[t].mode != Ordinary || !ClaimReady(s, t) || !Admitted(s, s.tables.settlements[t].lease) then s
    else
      var l := s.tables.settlements[t].lease;
      match Append(s, [TerminalPrepared(l.id, l.generation, if packet.Some? then packet.value else MISSING)], storeOk)
      case Some(next) => s.(store := s.store.(journal := next.store.journal, durable := next.store.durable),
                            tables := s.tables.(settlements := s.tables.settlements - {t}),
                            stop := UntrackSettlement(s.stop, t))
      case None => s.(runs := s.runs.(live := s.runs.live[l.id := Latched(s.runs.live[l.id], LatchTriple)]))
  }

  /** Everything a packetless completed attention generation must show. */
  predicate NoActionEligible(s: State, t: Token, allowStopping: bool) {
    && t in s.tables.settlements && s.tables.settlements[t].mode == Ordinary
    && s.tables.settlements[t].runErrorKnown && !s.tables.settlements[t].runFailed
    && ClaimReady(s, t) && ExactLease(s, s.tables.settlements[t].lease)
    && var id := s.tables.settlements[t].lease.id;
    && var a, live := s.store.durable[id], s.runs.live[id];
    && (a.phase == Running || (allowStopping && a.phase == Stopping))
    && a.trigger == AttentionTrigger && a.prepared.None? && !live.recovery && live.binding.value.ready
    && var e := live.binding.value.evidence;
    && !e.reportRequired && e.noAction && !e.terminalSeen
  }

  function WithEvidence(s: State, id: Id, e: Evidence): (n: State)
    requires id in s.runs.live && s.runs.live[id].binding.Some?
    ensures n == s.(runs := s.runs.(live := n.runs.live))
    ensures SameSteers(s.runs.live, n.runs.live)
    ensures SameWaiters(s.runs.live, n.runs.live)
    ensures SameLeases(s.runs.live, n.runs.live)
  {
    s.(runs := s.runs.(live := s.runs.live[id := s.runs.live[id].(binding := Some(s.runs.live[id].binding.value.(evidence := e)))]))
  }

  function PrepareNoAction(s: State, t: Token, fallback: Finish): (n: State)
    ensures n == s.(runs := s.runs.(live := n.runs.live))
    ensures SameSteers(s.runs.live, n.runs.live) && EvidenceGrows(s.runs.live, n.runs.live)
    ensures SameWaiters(s.runs.live, n.runs.live)
    ensures SameLeases(s.runs.live, n.runs.live)
  {
    if !NoActionEligible(s, t, false) then s
    else
      var id := s.tables.settlements[t].lease.id;
      WithEvidence(s, id, s.runs.live[id].binding.value.evidence.(fallback := Some(fallback)))
  }

  function FinishNoAction(s: State, t: Token, now: nat, storeOk: bool): (n: State)
    ensures OnlyRunEnds(s, n)
    ensures SteersReleased(s.runs.live, n.runs.live) && EvidenceGrows(s.runs.live, n.runs.live)
    ensures SameWaiters(s.runs.live, n.runs.live)
    ensures OnlyGeneration(s.stop, n.stop)
  {
    if !NoActionEligible(s, t, true) then s
    else
      var l := s.tables.settlements[t].lease;
      var e := s.runs.live[l.id].binding.value.evidence;
      if e.fallback.None? then s
      else
        var finish := if s.store.durable[l.id].phase == Stopping then e.fallback.value
                      else FinishOf(Completed, CompletedNoAction, AttentionConsumed).(endedAt := e.fallback.value.endedAt);
        FinishGeneration(s, l, finish, true, now, storeOk)
  }

  function RequireRecovery(s: State, t: Token): (n: State)
    ensures n == s.(runs := s.runs.(live := n.runs.live))
    ensures SameSteers(s.runs.live, n.runs.live) && EvidenceGrows(s.runs.live, n.runs.live)
    ensures SameWaiters(s.runs.live, n.runs.live)
    ensures SameLeases(s.runs.live, n.runs.live)
  {
    if t !in s.tables.settlements || !ExactLease(s, s.tables.settlements[t].lease) then s
    else
      var id := s.tables.settlements[t].lease.id;
      s.(runs := s.runs.(live := s.runs.live[id := Latched(s.runs.live[id], LatchTriple)]))
  }

  function ReportQuiesced(s: State, l: Lease, runtime: Runtime): (n: State)
    ensures n == s.(runs := s.runs.(live := n.runs.live))
    ensures SameSteers(s.runs.live, n.runs.live) && EvidenceGrows(s.runs.live, n.runs.live)
    ensures SameWaiters(s.runs.live, n.runs.live)
    ensures SameLeases(s.runs.live, n.runs.live)
  {
    if !ExactLease(s, l) || s.runs.live[l.id].binding.value.runtime != runtime then s
    else s.(runs := s.runs.(live := s.runs.live[l.id := s.runs.live[l.id].(runnerPending := false)]))
  }

  // ---- Completion evidence ----

  function AdmitReportWork(s: State, l: Lease): (n: State)
    ensures n == s.(runs := s.runs.(live := n.runs.live))
    ensures SameSteers(s.runs.live, n.runs.live) && EvidenceGrows(s.runs.live, n.runs.live)
    ensures SameWaiters(s.runs.live, n.runs.live)
    ensures SameLeases(s.runs.live, n.runs.live)
  {
    if !ExactLease(s, l) then s
    else WithEvidence(s, l.id, s.runs.live[l.id].binding.value.evidence.(reportRequired := true))
  }

  function RecordNoAction(s: State, l: Lease): (n: State)
    ensures n == s.(runs := s.runs.(live := n.runs.live))
    ensures SameSteers(s.runs.live, n.runs.live) && EvidenceGrows(s.runs.live, n.runs.live)
    ensures SameWaiters(s.runs.live, n.runs.live)
    ensures SameLeases(s.runs.live, n.runs.live)
  {
    if !ExactLease(s, l) then s
    else
      var e := s.runs.live[l.id].binding.value.evidence;
      if e.reportRequired || e.terminalSeen then s else WithEvidence(s, l.id, e.(noAction := true))
  }

  function RecordTerminalSeen(s: State, l: Lease): (n: State)
    ensures n == s.(runs := s.runs.(live := n.runs.live))
    ensures SameSteers(s.runs.live, n.runs.live) && EvidenceGrows(s.runs.live, n.runs.live)
    ensures SameWaiters(s.runs.live, n.runs.live)
    ensures SameLeases(s.runs.live, n.runs.live)
  {
    if !ExactLease(s, l) then s
    else WithEvidence(s, l.id, s.runs.live[l.id].binding.value.evidence.(terminalSeen := true))
  }

  // ---- Steps ----

  datatype FinishStep =
    | DoFinishGeneration(lease: Lease, finish: Finish, now: nat, storeOk: bool)
    | DoBeginFinalization(lease: Lease, mode: Mode, runErrorKnown: bool, runFailed: bool)
    | DoCompleteSettlement(token: Token, packet: Option<Packet>, storeOk: bool)
    | DoPrepareNoAction(token: Token, fallback: Finish)
    | DoFinishNoAction(token: Token, now: nat, storeOk: bool)
    | DoRequireRecovery(token: Token)
    | DoReportQuiesced(lease: Lease, runtime: Runtime)
    | DoAdmitReportWork(lease: Lease)
    | DoRecordNoAction(lease: Lease)
    | DoRecordTerminalSeen(lease: Lease)

  function NextFinish(s: State, step: FinishStep): State {
    match step
    case DoFinishGeneration(l, f, now, ok) => FinishGeneration(s, l, f, false, now, ok)
    case DoBeginFinalization(l, m, k, e) => BeginFinalization(s, l, m, k, e)
    case DoCompleteSettlement(t, p, ok) => CompleteSettlement(s, t, p, ok)
    case DoPrepareNoAction(t, f) => PrepareNoAction(s, t, f)
    case DoFinishNoAction(t, now, ok) => FinishNoAction(s, t, now, ok)
    case DoRequireRecovery(t) => RequireRecovery(s, t)
    case DoReportQuiesced(l, r) => ReportQuiesced(s, l, r)
    case DoAdmitReportWork(l) => AdmitReportWork(s, l)
    case DoRecordNoAction(l) => RecordNoAction(s, l)
    case DoRecordTerminalSeen(l) => RecordTerminalSeen(s, l)
  }
}
